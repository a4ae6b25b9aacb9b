/** The floating panel's persisted state (floating-panel.tsx): three
    localStorage keys holding JSON text for the position, the size and the
    theme, the loader that reads them back with shape checks, and the saver.

    Storage is a map from key to what its text parses to. A missing key is
    `getItem` returning null; `EmptyText` is the empty string, which the
    loader's truthiness test skips; `Malformed` is text on which `JSON.parse`
    throws. */
module PanelStore {
  import opened PanelState

  /** A parsed JSON value; numbers are integers in this model. */
  datatype Json =
    | JNull
    | JBool(b: bool)
    | JNum(n: int)
    | JStr(s: string)
    | JArr(items: seq<Json>)
    | JObj(fields: map<string, Json>)

  datatype Stored = EmptyText | Malformed | Parses(value: Json)

  type Store = map<string, Stored>

  const PosKey: string := "floatingPanelPosition"
  const SizeKey: string := "floatingPanelSize"
  const ColorKey: string := "floatingPanelColors"

  /** Reading `parsed.name`: a TypeError on null, the field of an object,
      `undefined` on anything else. */
  datatype Prop = Undefined | Value(v: Json) | Throws

  function Member(j: Json, name: string): (r: Prop)
    ensures r.Throws? <==> j.JNull?
  {
    match j
    case JNull => Throws
    case JObj(m) => if name in m then Value(m[name]) else Undefined
    case _ => Undefined
  }

  /** `typeof parsed[name] === "number"`, with its value. */
  predicate IsNumber(p: Prop) {
    p.Value? && p.v.JNum?
  }

  /** A colour field the loader accepts: a truthy string, that is a non-empty one. */
  predicate IsColorText(p: Prop) {
    p.Value? && p.v.JStr? && p.v.s != ""
  }

  /** What loading one key does: keep the current value, take a stored one, or
      throw, which ends the whole load (the keys after it are not read). */
  datatype Step<T> = Keep | Take(value: T) | Abort

  /** `getItem` followed, when the text is truthy, by `JSON.parse`. */
  function Read(store: Store, key: string): (r: Step<Json>)
    ensures r.Take? <==> key in store && store[key].Parses?
    ensures r.Abort? <==> key in store && store[key] == Malformed
  {
    if key !in store then Keep
    else match store[key]
      case EmptyText => Keep
      case Malformed => Abort
      case Parses(j) => Take(j)
  }

  function DecodePosition(j: Json): (r: Step<Point>)
    ensures r.Abort? <==> j.JNull?
    ensures r.Take? <==> IsNumber(Member(j, "x")) && IsNumber(Member(j, "y"))
    ensures r.Take? ==> r.value == Point(Member(j, "x").v.n, Member(j, "y").v.n)
  {
    if j.JNull? then Abort
    else
      var x, y := Member(j, "x"), Member(j, "y");
      if IsNumber(x) && IsNumber(y) then Take(Point(x.v.n, y.v.n)) else Keep
  }

  function DecodeSize(j: Json): (r: Step<Size>)
    ensures r.Abort? <==> j.JNull?
    ensures r.Take? <==> IsNumber(Member(j, "width")) && IsNumber(Member(j, "height"))
    ensures r.Take? ==> AtLeastMin(r.value)
    ensures r.Take? ==> r.value == ClampSize(Size(Member(j, "width").v.n, Member(j, "height").v.n))
  {
    if j.JNull? then Abort
    else
      var w, h := Member(j, "width"), Member(j, "height");
      if IsNumber(w) && IsNumber(h) then Take(ClampSize(Size(w.v.n, h.v.n))) else Keep
  }

  function DecodeColors(j: Json): (r: Step<Colors>)
    ensures r.Abort? <==> j.JNull?
    ensures r.Take? <==> IsColorText(Member(j, "headerBg")) && IsColorText(Member(j, "headerText"))
                         && IsColorText(Member(j, "bodyBg")) && IsColorText(Member(j, "bodyText"))
    ensures r.Take? ==> r.value.headerBg != "" && r.value.headerText != ""
                        && r.value.bodyBg != "" && r.value.bodyText != ""
  {
    if j.JNull? then Abort
    else
      var hb, ht := Member(j, "headerBg"), Member(j, "headerText");
      var bb, bt := Member(j, "bodyBg"), Member(j, "bodyText");
      if IsColorText(hb) && IsColorText(ht) && IsColorText(bb) && IsColorText(bt) then
        Take(Colors(hb.v.s, ht.v.s, bb.v.s, bt.v.s))
      else Keep
  }

  /** Chains a read and a decode: a throw in either aborts. */
  function Then<T>(read: Step<Json>, decode: Json -> Step<T>): Step<T> {
    match read
    case Keep => Keep
    case Abort => Abort
    case Take(j) => decode(j)
  }

  function LoadPosition(store: Store): Step<Point> {
    Then(Read(store, PosKey), DecodePosition)
  }

  function LoadSize(store: Store): Step<Size> {
    Then(Read(store, SizeKey), DecodeSize)
  }

  function LoadColors(store: Store): Step<Colors> {
    Then(Read(store, ColorKey), DecodeColors)
  }

  /** The persisted part of the panel's state. */
  datatype Snapshot = Snapshot(position: Point, size: Size, colors: Colors)

  const Defaults: Snapshot := Snapshot(DefaultPosition, DefaultSize, DefaultColors)

  function Pick<T>(s: Step<T>, current: T): T {
    if s.Take? then s.value else current
  }

  /** The load effect: position, then size, then colours, each taken only when
      its shape check passes; a throw while reading one key leaves that key and
      every later one at its current value. */
  function Load(store: Store, cur: Snapshot): (r: Snapshot)
    ensures AtLeastMin(cur.size) ==> AtLeastMin(r.size)
    ensures LoadPosition(store).Abort? ==> r == cur
    ensures r.position == Pick(LoadPosition(store), cur.position)
    ensures r.size == if LoadPosition(store).Abort? then cur.size else Pick(LoadSize(store), cur.size)
    ensures r.colors == if LoadPosition(store).Abort? || LoadSize(store).Abort? then cur.colors
                        else Pick(LoadColors(store), cur.colors)
  {
    var p := LoadPosition(store);
    if p.Abort? then cur
    else
      var s := LoadSize(store);
      var cur1 := cur.(position := Pick(p, cur.position));
      if s.Abort? then cur1
      else
        var c := LoadColors(store);
        var cur2 := cur1.(size := Pick(s, cur.size));
        if c.Abort? then cur2 else cur2.(colors := Pick(c, cur.colors))
  }

  // ---------------------------------------------------------------------
  // Saving

  function EncodePosition(p: Point): Json {
    JObj(map["x" := JNum(p.x), "y" := JNum(p.y)])
  }

  function EncodeSize(s: Size): Json {
    JObj(map["width" := JNum(s.width), "height" := JNum(s.height)])
  }

  function EncodeColors(c: Colors): Json {
    JObj(map["headerBg" := JStr(c.headerBg), "headerText" := JStr(c.headerText),
             "bodyBg" := JStr(c.bodyBg), "bodyText" := JStr(c.bodyText)])
  }

  /** `saveToLocalStorage`: writes the three keys and no other. */
  function Save(store: Store, s: Snapshot): (r: Store)
    ensures r.Keys == store.Keys + {PosKey, SizeKey, ColorKey}
    ensures forall k :: k in store && k != PosKey && k != SizeKey && k != ColorKey ==> r[k] == store[k]
  {
    store[PosKey := Parses(EncodePosition(s.position))]
         [SizeKey := Parses(EncodeSize(s.size))]
         [ColorKey := Parses(EncodeColors(s.colors))]
  }

  predicate ColorsPresent(c: Colors) {
    c.headerBg != "" && c.headerText != "" && c.bodyBg != "" && c.bodyText != ""
  }

  /** Each encoder is inverted by the matching decoder (up to the size clamp). */
  lemma DecodeEncode(s: Snapshot)
    ensures DecodePosition(EncodePosition(s.position)) == Take(s.position)
    ensures DecodeSize(EncodeSize(s.size)) == Take(ClampSize(s.size))
    ensures DecodeColors(EncodeColors(s.colors)) == if ColorsPresent(s.colors) then Take(s.colors) else Keep
  {
    var pm := EncodePosition(s.position).fields;
    assert Member(EncodePosition(s.position), "x") == Value(JNum(s.position.x)) by { assert "x" in pm; }
    assert Member(EncodePosition(s.position), "y") == Value(JNum(s.position.y)) by { assert "y" in pm; }
    var sm := EncodeSize(s.size).fields;
    assert Member(EncodeSize(s.size), "width") == Value(JNum(s.size.width)) by { assert "width" in sm; }
    assert Member(EncodeSize(s.size), "height") == Value(JNum(s.size.height)) by { assert "height" in sm; }
    var e := EncodeColors(s.colors);
    assert Member(e, "headerBg") == Value(JStr(s.colors.headerBg)) by { assert "headerBg" in e.fields; }
    assert Member(e, "headerText") == Value(JStr(s.colors.headerText)) by { assert "headerText" in e.fields; }
    assert Member(e, "bodyBg") == Value(JStr(s.colors.bodyBg)) by { assert "bodyBg" in e.fields; }
    assert Member(e, "bodyText") == Value(JStr(s.colors.bodyText)) by { assert "bodyText" in e.fields; }
  }

  /** Save then load: the saved position comes back, the saved size comes back
      clamped to MIN_SIZE, and the saved theme comes back whenever all four of
      its entries are non-empty (otherwise the current theme is kept). */
  lemma LoadAfterSave(store: Store, saved: Snapshot, cur: Snapshot)
    ensures Load(Save(store, saved), cur)
         == Snapshot(saved.position, ClampSize(saved.size),
                     if ColorsPresent(saved.colors) then saved.colors else cur.colors)
  {
    var st := Save(store, saved);
    assert st[PosKey] == Parses(EncodePosition(saved.position));
    assert st[SizeKey] == Parses(EncodeSize(saved.size));
    assert st[ColorKey] == Parses(EncodeColors(saved.colors));
    DecodeEncode(saved);
  }

  /** Hiding and showing again restores exactly what was last saved, as long as
      the saved size respects MIN_SIZE and the theme has no empty entry. */
  lemma ShowRestoresSaved(store: Store, saved: Snapshot, cur: Snapshot)
    requires AtLeastMin(saved.size) && ColorsPresent(saved.colors)
    ensures Load(Save(store, saved), cur) == saved
  {
    LoadAfterSave(store, saved, cur);
  }

  /** Nothing stored: loading keeps the current state. */
  lemma LoadEmptyStore(cur: Snapshot)
    ensures Load(map[], cur) == cur
  {
  }
}
