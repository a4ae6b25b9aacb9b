/** The `FloatingPanel` component (floating-panel.tsx) as an object whose
    methods are its event handlers and effects. Each handler runs to completion
    and React re-renders before the next event arrives, so every handler sees
    the current fields. `store` is the page's localStorage; `saves` records
    every call of `saveToLocalStorage`, in order. */
module FloatingPanelComponent {
  import opened PanelState
  import opened PanelStore

  class FloatingPanel {
    var show: bool
    var position: Point
    var size: Size
    var colors: Colors
    var isDragging: bool
    var isResizing: bool
    var dragStart: Point
    var showColorSettings: bool
    var store: Store
    ghost var saves: seq<Snapshot>

    /** Every size the panel ever holds respects MIN_SIZE. */
    ghost predicate Valid()
      reads this
    {
      AtLeastMin(size)
    }

    function TrackerState(): Tracker
      reads this
    {
      PanelState.Tracker(position, size, isDragging, isResizing, dragStart)
    }

    function Current(): Snapshot
      reads this
    {
      Snapshot(position, size, colors)
    }

    /** Whether the document-wide move/up listeners are attached. */
    predicate Subscribed()
      reads this
    {
      PanelState.Subscribed(TrackerState())
    }

    /** Mount: the initial state, then the load effect, which does its work
        only when the panel is mounted shown. */
    constructor (show: bool, store: Store)
      ensures Valid()
      ensures this.show == show && this.store == store && saves == []
      ensures !isDragging && !isResizing && dragStart == Point(0, 0) && !showColorSettings
      ensures Current() == if show then Load(store, Defaults) else Defaults
    {
      this.show := show;
      this.store := store;
      saves := [];
      isDragging, isResizing := false, false;
      dragStart := Point(0, 0);
      showColorSettings := false;
      var loaded := if show then Load(store, Defaults) else Defaults;
      position, size, colors := loaded.position, loaded.size, loaded.colors;
    }

    /** A new `show` prop. The load effect depends on `show`: it runs when the
        prop changes, and loads only when the new value is true. */
    method SetShow(newShow: bool)
      requires Valid()
      modifies this
      ensures Valid()
      ensures show == newShow
      ensures Current() == if newShow && !old(show) then Load(store, old(Current())) else old(Current())
      ensures store == old(store) && saves == old(saves)
      ensures isDragging == old(isDragging) && isResizing == old(isResizing) && dragStart == old(dragStart)
      ensures showColorSettings == old(showColorSettings)
    {
      if newShow != show {
        show := newShow;
        if newShow {
          var loaded := Load(store, Current());
          position, size, colors := loaded.position, loaded.size, loaded.colors;
        }
      }
    }

    /** `handleDragStart`: arms a drag at the pointer, only while shown. */
    method HandleDragStart(clientX: int, clientY: int)
      requires Valid()
      modifies this
      ensures Valid()
      ensures isDragging == (old(isDragging) || old(show))
      ensures dragStart == if old(show) then Point(clientX, clientY) else old(dragStart)
      ensures isResizing == old(isResizing) && Current() == old(Current())
      ensures show == old(show) && store == old(store) && saves == old(saves)
      ensures showColorSettings == old(showColorSettings)
    {
      if show {
        isDragging := true;
        dragStart := Point(clientX, clientY);
      }
    }

    /** `handleResizeStart`: arms a resize at the pointer, only while shown. */
    method HandleResizeStart(clientX: int, clientY: int)
      requires Valid()
      modifies this
      ensures Valid()
      ensures isResizing == (old(isResizing) || old(show))
      ensures dragStart == if old(show) then Point(clientX, clientY) else old(dragStart)
      ensures isDragging == old(isDragging) && Current() == old(Current())
      ensures show == old(show) && store == old(store) && saves == old(saves)
      ensures showColorSettings == old(showColorSettings)
    {
      if show {
        isResizing := true;
        dragStart := Point(clientX, clientY);
      }
    }

    /** A `mousemove` on the document. While idle no listener is attached and
        nothing happens; otherwise `handleMouseMove` applies the delta. */
    method HandleMouseMove(clientX: int, clientY: int)
      requires Valid()
      modifies this
      ensures Valid()
      ensures TrackerState() == Move(old(TrackerState()), Point(clientX, clientY))
      ensures colors == old(colors) && store == old(store) && saves == old(saves)
      ensures show == old(show) && showColorSettings == old(showColorSettings)
    {
      if isDragging || isResizing {
        var dx := clientX - dragStart.x;
        var dy := clientY - dragStart.y;
        if isDragging {
          position := Point(position.x + dx, position.y + dy);
        } else if isResizing {
          size := Size(Max(size.width + dx, MinSize.width), Max(size.height + dy, MinSize.height));
        }
        dragStart := Point(clientX, clientY);
      }
    }

    /** A `mouseup` on the document: when a drag or resize was armed, saves the
        current position, size and colours once; in every case ends up idle. */
    method HandleMouseUp()
      requires Valid()
      modifies this
      ensures Valid()
      ensures !isDragging && !isResizing
      ensures Current() == old(Current()) && dragStart == old(dragStart)
      ensures old(Subscribed()) ==> store == Save(old(store), old(Current())) && saves == old(saves) + [old(Current())]
      ensures !old(Subscribed()) ==> store == old(store) && saves == old(saves)
      ensures show == old(show) && showColorSettings == old(showColorSettings)
    {
      if isDragging || isResizing {
        SaveToLocalStorage(Current());
      }
      isDragging, isResizing := false, false;
    }

    /** `handleColorChange`: replaces one theme entry and saves at once. */
    method HandleColorChange(key: ColorKey, value: string)
      requires Valid()
      modifies this
      ensures Valid()
      ensures colors == WithColor(old(colors), key, value)
      ensures position == old(position) && size == old(size)
      ensures store == Save(old(store), Current()) && saves == old(saves) + [Current()]
      ensures isDragging == old(isDragging) && isResizing == old(isResizing) && dragStart == old(dragStart)
      ensures show == old(show) && showColorSettings == old(showColorSettings)
    {
      colors := WithColor(colors, key, value);
      SaveToLocalStorage(Snapshot(position, size, colors));
    }

    /** `handleSettingsClick`: shows or hides the colour settings. */
    method HandleSettingsClick()
      requires Valid()
      modifies this
      ensures Valid()
      ensures showColorSettings == !old(showColorSettings)
      ensures Current() == old(Current()) && TrackerState() == old(TrackerState())
      ensures show == old(show) && store == old(store) && saves == old(saves)
    {
      showColorSettings := !showColorSettings;
    }

    method SaveToLocalStorage(s: Snapshot)
      requires Valid()
      modifies this`store, this`saves
      ensures Valid()
      ensures store == Save(old(store), s) && saves == old(saves) + [s]
    {
      store := Save(store, s);
      saves := saves + [s];
    }
  }

  /** The drag scenario: pointer down on the header at (100,100), moves to
      (130,160) and (110,140), release. The panel ends 10 right and 40 down of
      where it started, and the only save is the final state, at release. */
  method DragScenario(store: Store)
  {
    var p := new FloatingPanel(false, store);
    p.SetShow(true);
    var start := p.position;
    p.HandleDragStart(100, 100);
    p.HandleMouseMove(130, 160);
    assert p.saves == [];
    p.HandleMouseMove(110, 140);
    p.HandleMouseUp();
    assert p.position == Point(start.x + 10, start.y + 40);
    assert p.saves == [p.Current()];
    assert !p.isDragging && !p.isResizing;
  }

  /** The resize scenario: from the default 320x200, dragging the handle by
      (-500,-500) leaves the panel exactly at MIN_SIZE. */
  method ResizeScenario()
  {
    var p := new FloatingPanel(true, map[]);
    LoadEmptyStore(Defaults);
    assert p.size == Size(320, 200);
    p.HandleResizeStart(600, 600);
    p.HandleMouseMove(100, 100);
    assert p.size == MinSize;
    p.HandleMouseUp();
    assert p.saves == [Snapshot(Point(40, 40), MinSize, DefaultColors)];
  }

  /** A preset button of the colour panel: header background, then header
      text; two saves, the second carrying both new entries. */
  method PresetScenario(store: Store)
  {
    var p := new FloatingPanel(true, store);
    var before := p.colors;
    p.HandleColorChange(HeaderBg, "#3B82F6");
    p.HandleColorChange(HeaderText, "#FFFFFF");
    PresetKeepsBody(before, "#3B82F6", "#FFFFFF");
    assert p.colors == Colors("#3B82F6", "#FFFFFF", before.bodyBg, before.bodyText);
    assert |p.saves| == 2 && p.saves[1].colors == p.colors;
  }
}
