/**
 * The cake-design state engine: the design state, its undo/redo history,
 * the snapshot taken on every commit (`addToHistory`), the rehydration of a
 * history entry (`rebuildFromHistory`) and the action reducer (`cakeReducer`).
 */
module CakeContext {
  import opened Js
  import opened CakeRenderer
  import opened Elements
  import History

  /** The plain-data fields of the state that actions set, besides the cake
      model and the elements. A field that is undefined is absent from the map. */
  datatype Field =
    | BaseStyle | CakeType | CakeColor | Flavour | Topper | Message
    | CakeTopPosition | MessageFont | MessageColor | MessagePosition | MessageScale | CakePlacement

  /** `cakeModel`: null, plain data left by a JSON round trip, or a live `BaseModel`. */
  datatype CakeSlot = NullCake | PlainCake(record: CakeRecord) | LiveCake(model: BaseModel)

  /** The tag `addToHistory` gives every element record. */
  const ElementTag: string := "ElementModel"

  /** A tagged element record `{type, properties, uniqueId, path}` in a snapshot. */
  datatype ElementRecord = ElementRecord(kind: string, properties: ElementProps, uniqueId: string, path: Option<Json>)

  /** An entry of `elements`: a live element object, or a record that
      `rebuildFromHistory` passed through because it was not tagged as an element. */
  datatype ElementSlot = LiveElement(model: ElementModel) | PlainElement(record: ElementRecord)

  /** The live design: everything in the state except `history` and `currentIndex`. */
  datatype Design = Design(cakeModel: CakeSlot, elements: seq<ElementSlot>, attrs: map<Field, Json>)

  /** A history snapshot: the design as plain JSON data. It has no
      `history`/`currentIndex` and no component that is an object reference
      or a function, so its JSON deep copy is itself. */
  datatype Snapshot = Snapshot(cakeModel: Option<CakeRecord>, elements: seq<ElementRecord>, attrs: map<Field, Json>)

  /** A history entry: a snapshot pushed by `addToHistory`, or the raw,
      unserialized state that `SET_MESSAGE_SCALE` pushes. */
  datatype Entry = Snap(snapshot: Snapshot) | Raw(state: State)

  datatype State = State(design: Design, history: seq<Entry>, currentIndex: int)

  datatype Action =
    | SetBaseStyle(payload: Option<Json>, cakeModelProps: Option<Json>)
    | SetCakeType(payload: Option<Json>, cakeModelProps: Option<Json>)
    | SetCakeColor(payload: Option<Json>)
    | SetFlavour(payload: Option<Json>)
    | AddElement(cakeModelProps: Option<Json>)
    | RemoveElement(target: ElementModel)
    | SetTopper(payload: Option<Json>)
    | SetMessage(payload: Option<Json>)
    | SetCakeTopPosition(payload: Option<Json>)
    | SetMessageFont(payload: Option<Json>)
    | SetMessageColor(payload: Option<Json>)
    | SetMessagePosition(payload: Option<Json>)
    | SetMessageScale(payload: Option<Json>)
    | Undo
    | Redo
    | Reset
    | UpdateCakePlacement(payload: Option<Json>)
    | Unknown(tag: string)

  // ---------------------------------------------------------------- state

  /** `state[f]`, undefined when absent. */
  function AttrOf(attrs: map<Field, Json>, f: Field): Option<Json>
  {
    if f in attrs then Some(attrs[f]) else None
  }

  function InitialDesign(): Design
  {
    Design(NullCake, [], map[CakeColor := JStr("#FFFFFF"), Flavour := JStr(""), Message := JStr("")])
  }

  /** `initialState`: no cake model, no elements, white cake, empty flavour
      and message, empty history, cursor -1. */
  function InitialState(): (s: State)
    ensures s.design.cakeModel == NullCake && s.design.elements == []
    ensures s.design.attrs.Keys == {CakeColor, Flavour, Message}
    ensures AttrOf(s.design.attrs, CakeColor) == Some(JStr("#FFFFFF"))
    ensures AttrOf(s.design.attrs, Flavour) == Some(JStr("")) && AttrOf(s.design.attrs, Message) == Some(JStr(""))
    ensures s.history == [] && s.currentIndex == -1
  {
    State(InitialDesign(), [], -1)
  }

  function BufferOf(s: State): History.Buffer<Entry>
  {
    History.Buffer(s.history, s.currentIndex)
  }

  /** `{...attrs, [f]: payload}`; an undefined payload leaves the field undefined. */
  function SetAttr(attrs: map<Field, Json>, f: Field, payload: Option<Json>): (r: map<Field, Json>)
    ensures forall g :: g != f ==> (g in r <==> g in attrs) && (g in r ==> r[g] == attrs[g])
    ensures payload.Some? <==> f in r
    ensures payload.Some? ==> r[f] == payload.value
  {
    if payload.Some? then attrs[f := payload.value] else attrs - {f}
  }

  function WithAttr(s: State, f: Field, payload: Option<Json>): State
  {
    s.(design := s.design.(attrs := SetAttr(s.design.attrs, f, payload)))
  }

  function WithElements(s: State, es: seq<ElementSlot>): State
  {
    s.(design := s.design.(elements := es))
  }

  // ------------------------------------------------------------- snapshot

  function ElementObjects(es: seq<ElementSlot>): set<ElementModel>
  {
    set e | e in es && e.LiveElement? :: e.model
  }

  function CakeObjects(c: CakeSlot): set<BaseModel>
  {
    if c.LiveCake? then {c.model} else {}
  }

  predicate AllLive(es: seq<ElementSlot>)
  {
    forall i :: 0 <= i < |es| ==> es[i].LiveElement?
  }

  /** The record `{type: 'ElementModel', properties: getProperties(), uniqueId, path}`. */
  function Tag(m: ElementModel): (r: ElementRecord)
    reads m
    ensures r.kind == ElementTag && r.uniqueId == m.uniqueId && r.path == m.path
    ensures r.properties == ElementProps(m.name, m.position, m.color, m.targetedMeshName, m.price, m.scale)
  {
    ElementRecord(ElementTag, m.GetProperties(), m.uniqueId, m.path)
  }

  /** `cakeModel` after the JSON round trip: null stays null, plain data is
      itself, and a live layer keeps its data fields with an empty texture map. */
  function EncodeCake(c: CakeSlot): (r: Option<CakeRecord>)
    reads CakeObjects(c)
    ensures r.None? <==> c.NullCake?
    ensures c.PlainCake? ==> r == Some(c.record)
    ensures c.LiveCake? ==> r.Some? && r.value.textureMap == JObj(map[])
    ensures c.LiveCake? ==> r.Some? && r.value.path == c.model.path && r.value.color == c.model.color
    ensures c.LiveCake? ==> r.Some? && r.value.name == c.model.name && r.value.price == c.model.price
  {
    match c
    case NullCake => None
    case PlainCake(rec) => Some(rec)
    case LiveCake(m) => Some(m.PlainRecord())
  }

  /** `sn` is the snapshot of `d`: the same cake data and fields, and each
      element, in order, as its tagged record. */
  predicate SnapshotOf(d: Design, sn: Snapshot)
    reads ElementObjects(d.elements), CakeObjects(d.cakeModel)
  {
    && sn.cakeModel == EncodeCake(d.cakeModel)
    && sn.attrs == d.attrs
    && |sn.elements| == |d.elements|
    && forall i :: 0 <= i < |d.elements| ==>
         d.elements[i].LiveElement? && sn.elements[i] == Tag(d.elements[i].model)
  }

  /** `elements.map(...)` of `addToHistory`: a record without `getProperties`
      (one passed through by a rebuild) makes the call throw. */
  function EncodeElements(es: seq<ElementSlot>): (r: Result<seq<ElementRecord>, Error>)
    reads ElementObjects(es)
    ensures r.Success? <==> AllLive(es)
    ensures r.Failure? ==> r.error == NotAFunction("getProperties")
    ensures r.Success? ==> |r.value| == |es|
    ensures r.Success? ==> forall i :: 0 <= i < |es| ==> r.value[i] == Tag(es[i].model)
    decreases |es|
  {
    if es == [] then Success([])
    else
      match es[0]
      case PlainElement(_) => Failure(NotAFunction("getProperties"))
      case LiveElement(m) =>
        match EncodeElements(es[1..])
        case Failure(e) => Failure(e)
        case Success(rest) => Success([Tag(m)] + rest)
  }

  /** The serializable form of a design, as deep-copied into the history. */
  function Encode(d: Design): (r: Result<Snapshot, Error>)
    reads ElementObjects(d.elements), CakeObjects(d.cakeModel)
    ensures r.Success? <==> AllLive(d.elements)
    ensures r.Failure? ==> r.error == NotAFunction("getProperties")
    ensures r.Success? ==> SnapshotOf(d, r.value)
  {
    match EncodeElements(d.elements)
    case Failure(e) => Failure(e)
    case Success(records) => Success(Snapshot(EncodeCake(d.cakeModel), records, d.attrs))
  }

  /** `addToHistory`: snapshot the design, cut the history after the cursor,
      append the snapshot and move the cursor onto it. The design is untouched. */
  function AddToHistory(s: State): (r: Result<State, Error>)
    reads ElementObjects(s.design.elements), CakeObjects(s.design.cakeModel)
    ensures r.Success? <==> AllLive(s.design.elements)
    ensures r.Failure? ==> r.error == NotAFunction("getProperties")
    ensures r.Success? ==> r.value.design == s.design
    ensures r.Success? && BufferOf(s).Valid() ==>
              && |r.value.history| == s.currentIndex + 2
              && r.value.history[..s.currentIndex + 1] == s.history[..s.currentIndex + 1]
              && r.value.currentIndex == s.currentIndex + 1
              && r.value.history[r.value.currentIndex].Snap?
              && SnapshotOf(s.design, r.value.history[r.value.currentIndex].snapshot)
    ensures r.Success? && BufferOf(s).Valid() ==> BufferOf(r.value).WellFormed()
  {
    match Encode(s.design)
    case Failure(e) => Failure(e)
    case Success(snapshot) =>
      var b := History.Commit(BufferOf(s), Snap(snapshot));
      Success(State(s.design, b.entries, b.cursor))
  }

  // ----------------------------------------------------------- rehydration

  /** `history[i]`, undefined outside the list. */
  function Lookup(h: seq<Entry>, i: int): (r: Option<Entry>)
    ensures r.Some? <==> 0 <= i < |h|
    ensures r.Some? ==> r.value == h[i]
  {
    if 0 <= i < |h| then Some(h[i]) else None
  }

  /** The `elements` list of a history entry, as `rebuildFromHistory` walks it. */
  function HistoricalElements(e: Entry): seq<ElementSlot>
  {
    match e
    case Snap(sn) => seq(|sn.elements|, i requires 0 <= i < |sn.elements| => PlainElement(sn.elements[i]))
    case Raw(st) => st.design.elements
  }

  function HistoricalCake(e: Entry): CakeSlot
  {
    match e
    case Snap(sn) => if sn.cakeModel.Some? then PlainCake(sn.cakeModel.value) else NullCake
    case Raw(st) => st.design.cakeModel
  }

  function HistoricalAttrs(e: Entry): map<Field, Json>
  {
    match e
    case Snap(sn) => sn.attrs
    case Raw(st) => st.design.attrs
  }

  /** `elData.type === 'ElementModel'` */
  predicate Tagged(slot: ElementSlot)
  {
    slot.PlainElement? && slot.record.kind == ElementTag
  }

  /** The fields of an element rebuilt from a tagged record. */
  function RecordFields(rec: ElementRecord): ElementFields
  {
    ElementFields(rec.path, rec.uniqueId, rec.properties, None)
  }

  /** `out` is `src` with every tagged record replaced by a live element
      carrying that record's path, identifier and properties, in order. */
  predicate RebuiltFrom(src: seq<ElementSlot>, out: seq<ElementSlot>)
    reads ElementObjects(out)
  {
    && |out| == |src|
    && forall i :: 0 <= i < |src| ==>
         if Tagged(src[i]) then out[i].LiveElement? && out[i].model.Fields() == RecordFields(src[i].record)
         else out[i] == src[i]
  }

  /** `d` is what `rebuildFromHistory` makes of the entry. */
  predicate RestoredFrom(d: Design, e: Option<Entry>)
    reads ElementObjects(d.elements)
  {
    if e.None? then d == InitialDesign()
    else
      && d.cakeModel == HistoricalCake(e.value)
      && d.attrs == HistoricalAttrs(e.value)
      && RebuiltFrom(HistoricalElements(e.value), d.elements)
  }

  /** Lines 80-88: a new element from a tagged record, its setters replayed. */
  method ElementFromRecord(rec: ElementRecord) returns (m: ElementModel)
    ensures fresh(m) && m.Fields() == RecordFields(rec)
  {
    m := new ElementModel(rec.path);
    m.uniqueId := rec.uniqueId;
    m.SetName(rec.properties.name);
    m.SetPosition(rec.properties.position);
    m.SetColor(rec.properties.color);
    m.SetTargetedMeshName(rec.properties.targetedMeshName);
    m.SetPrice(rec.properties.price);
    m.SetScale(rec.properties.scale);
  }

  /** `rebuildFromHistory`: the initial design for a missing entry; otherwise
      the entry's own fields, with each tagged record turned into a new,
      distinct element object and everything else passed through unchanged. */
  method RebuildFromHistory(entry: Option<Entry>) returns (d: Design)
    ensures RestoredFrom(d, entry)
    ensures entry.Some? ==> forall i :: 0 <= i < |d.elements| && Tagged(HistoricalElements(entry.value)[i]) ==>
              fresh(d.elements[i].model)
    ensures entry.Some? ==>
              forall i, j ::
                (0 <= i < j < |d.elements| &&
                 Tagged(HistoricalElements(entry.value)[i]) && Tagged(HistoricalElements(entry.value)[j]))
                ==> d.elements[i].model != d.elements[j].model
  {
    if entry.None? {
      return InitialDesign();
    }
    var src := HistoricalElements(entry.value);
    var out: seq<ElementSlot> := [];
    var i := 0;
    while i < |src|
      invariant 0 <= i <= |src| && |out| == i
      invariant forall j :: 0 <= j < i ==>
                  if Tagged(src[j]) then out[j].LiveElement? && fresh(out[j].model) && out[j].model.Fields() == RecordFields(src[j].record)
                  else out[j] == src[j]
      invariant forall j, k :: 0 <= j < k < i && Tagged(src[j]) && Tagged(src[k]) ==> out[j].model != out[k].model
    {
      if Tagged(src[i]) {
        var m := ElementFromRecord(src[i].record);
        out := out + [LiveElement(m)];
      } else {
        out := out + [src[i]];
      }
      i := i + 1;
    }
    d := Design(HistoricalCake(entry.value), out, HistoricalAttrs(entry.value));
  }

  // ------------------------------------------------------------ elements

  /** The element `ADD_ELEMENT` builds from its props and the fresh identifier. */
  function NewElementFields(props: Option<Json>, uniqueId: string): (r: ElementFields)
    ensures r.path == Get(props, "path") && r.uniqueId == uniqueId
    ensures Truthy(r.props.name) && Truthy(r.props.position) && Truthy(r.props.color) && Truthy(r.props.targetedMeshName)
    ensures Truthy(Get(props, "price")) ==> r.props.price == Get(props, "price")
    ensures !Truthy(Get(props, "price")) ==> r.props.price == Some(JNum(0.0))
    ensures r.props.scale.Some? <==> Truthy(Get(props, "scale"))
    ensures r.props.scale.Some? ==> r.props.scale == Get(props, "scale")
    ensures r.textures.Some? <==> Truthy(Get(props, "textures"))
    ensures r.textures.Some? ==> r.textures == Get(props, "textures")
  {
    var scale := Get(props, "scale");
    var textures := Get(props, "textures");
    ElementFields(
      Get(props, "path"),
      uniqueId,
      ElementProps(
        Some(Or(Get(props, "name"), Or(Get(props, "id"), JStr("Element")))),
        Some(Or(Get(props, "position"), Origin)),
        Some(Or(Get(props, "color"), JStr("#FFFFFF"))),
        Some(Or(Get(props, "targetedMeshName"), JStr("default"))),
        Some(Or(Get(props, "price"), JNum(0.0))),
        if Truthy(scale) then scale else None),
      if Truthy(textures) then textures else None)
  }

  /** Lines 145-164: `new ElementModel(props.path)`, the caller-supplied
      identifier, then the setters with their defaults; null or undefined
      props make the first property read throw. */
  method NewElement(props: Option<Json>, uniqueId: string) returns (r: Result<ElementModel, Error>)
    ensures Nullish(props) <==> r.Failure?
    ensures r.Failure? ==> r.error == PropertyOfNothing("path")
    ensures r.Success? ==> fresh(r.value) && r.value.Fields() == NewElementFields(props, uniqueId)
  {
    if Nullish(props) {
      return Failure(PropertyOfNothing("path"));
    }
    var m := new ElementModel(Get(props, "path"));
    m.uniqueId := uniqueId;
    m.SetName(Some(Or(Get(props, "name"), Or(Get(props, "id"), JStr("Element")))));
    m.SetPosition(Some(Or(Get(props, "position"), Origin)));
    m.SetColor(Some(Or(Get(props, "color"), JStr("#FFFFFF"))));
    m.SetTargetedMeshName(Some(Or(Get(props, "targetedMeshName"), JStr("default"))));
    m.SetPrice(Some(Or(Get(props, "price"), JNum(0.0))));
    if Truthy(Get(props, "textures")) {
      m.SetTextures(Get(props, "textures"));
    }
    if Truthy(Get(props, "scale")) {
      m.SetScale(Get(props, "scale"));
    }
    r := Success(m);
  }

  /** `elements.filter(el => el !== target)`: removal by identity. */
  function RemoveAll(es: seq<ElementSlot>, target: ElementModel): (r: seq<ElementSlot>)
    ensures forall i :: 0 <= i < |r| ==> r[i] in es && r[i] != LiveElement(target)
    ensures forall i :: 0 <= i < |es| && es[i] != LiveElement(target) ==> es[i] in r
    decreases |es|
  {
    if es == [] then []
    else (if es[0] == LiveElement(target) then [] else [es[0]]) + RemoveAll(es[1..], target)
  }

  // -------------------------------------------------------------- reducer

  /** `RenderCake`: a new `BaseModel` given its fields through the setters.
      `BaseModel` has `setTexture` but no `setTextures`, so the call on line 27
      throws and no model is ever returned. */
  method RenderCake(name: Option<Json>, path: Option<Json>, position: Option<Json>, color: Option<Json>,
                    targetedMeshName: Option<Json>, textures: Option<Json>, price: Option<Json>,
                    text: Option<Json>)
    returns (r: Result<BaseModel, Error>)
    ensures r == Failure(NotAFunction("setTextures"))
  {
    var cakeModel := new BaseModel(path);
    cakeModel.SetName(name);
    cakeModel.SetPosition(position);
    cakeModel.SetColor(color);
    cakeModel.SetTargetedMeshName(targetedMeshName);
    cakeModel.SetPath(path);
    cakeModel.SetPrice(price);
    r := Failure(NotAFunction("setTextures"));
  }

  /** `cake && cake.path`: `SET_CAKE_TYPE` renders a new cake model. */
  predicate RendersCake(props: Option<Json>)
  {
    Truthy(props) && Truthy(Get(props, "path"))
  }

  datatype Edit = Edit(field: Field, payload: Option<Json>)

  /** The actions that set one field and commit. */
  function EditOf(a: Action): Option<Edit>
  {
    match a
    case SetCakeColor(p) => Some(Edit(CakeColor, p))
    case SetFlavour(p) => Some(Edit(Flavour, p))
    case SetTopper(p) => Some(Edit(Topper, p))
    case SetMessage(p) => Some(Edit(Message, p))
    case SetCakeTopPosition(p) => Some(Edit(CakeTopPosition, p))
    case SetMessageFont(p) => Some(Edit(MessageFont, p))
    case SetMessageColor(p) => Some(Edit(MessageColor, p))
    case SetMessagePosition(p) => Some(Edit(MessagePosition, p))
    case _ => None
  }

  /** `SET_MESSAGE_SCALE`: set the scale and push the whole previous state,
      unserialized and with its own history, without going through `addToHistory`. */
  function MessageScaleStep(s: State, payload: Option<Json>): (r: State)
    ensures r.design == WithAttr(s, MessageScale, payload).design
    ensures r.currentIndex == s.currentIndex + 1
    ensures BufferOf(s).Valid() ==> r.history == s.history[..s.currentIndex + 1] + [Raw(s)]
  {
    var b := History.PushInline(BufferOf(s), Raw(s));
    State(WithAttr(s, MessageScale, payload).design, b.entries, b.cursor)
  }

  /** `UPDATE_CAKE_PLACEMENT`: the payload goes to both `cakePlacement` and
      `cakeTopPosition`; no history entry. */
  function PlacementStep(s: State, payload: Option<Json>): (r: State)
    ensures r.history == s.history && r.currentIndex == s.currentIndex
    ensures r.design.cakeModel == s.design.cakeModel && r.design.elements == s.design.elements
    ensures AttrOf(r.design.attrs, CakePlacement) == payload && AttrOf(r.design.attrs, CakeTopPosition) == payload
    ensures forall f :: f != CakePlacement && f != CakeTopPosition ==> AttrOf(r.design.attrs, f) == AttrOf(s.design.attrs, f)
  {
    s.(design := s.design.(attrs := SetAttr(SetAttr(s.design.attrs, CakePlacement, payload), CakeTopPosition, payload)))
  }

  /** `ADD_ELEMENT`: build the element, append it and commit. */
  method AddElementStep(s: State, props: Option<Json>, freshId: string) returns (r: Result<State, Error>)
    ensures Nullish(props) ==> r == Failure(PropertyOfNothing("path"))
    ensures !Nullish(props) ==> (r.Success? <==> AllLive(s.design.elements))
    ensures r.Success? ==>
              var n := |s.design.elements|;
              var es := r.value.design.elements;
              && |es| == n + 1 && es[..n] == s.design.elements
              && es[n].LiveElement? && fresh(es[n].model)
              && es[n].model.Fields() == NewElementFields(props, freshId)
              && r == AddToHistory(WithElements(s, es))
  {
    var built := NewElement(props, freshId);
    if built.Failure? {
      return Failure(built.error);
    }
    var es := s.design.elements + [LiveElement(built.value)];
    assert AllLive(es) <==> AllLive(s.design.elements) by {
      if AllLive(s.design.elements) {
        forall i | 0 <= i < |es| ensures es[i].LiveElement? {
          if i < |s.design.elements| { assert es[i] == s.design.elements[i]; }
        }
      }
      if AllLive(es) {
        forall i | 0 <= i < |s.design.elements| ensures s.design.elements[i].LiveElement? {
          assert es[i] == s.design.elements[i];
        }
      }
    }
    r := AddToHistory(WithElements(s, es));
    assert es[..|s.design.elements|] == s.design.elements;
  }

  /** `UNDO`: unless at index 0 or below (or with an empty history), step the
      cursor back and rebuild the design from the entry it now points at. */
  method UndoStep(s: State) returns (r: State)
    ensures BufferOf(r) == History.Undo(BufferOf(s))
    ensures |s.history| == 0 || s.currentIndex <= 0 ==> r == s
    ensures !(|s.history| == 0 || s.currentIndex <= 0) ==> RestoredFrom(r.design, Lookup(s.history, s.currentIndex - 1))
    ensures BufferOf(s).WellFormed() ==> BufferOf(r).WellFormed()
  {
    History.UndoSpec(BufferOf(s));
    if |s.history| == 0 || s.currentIndex <= 0 {
      return s;
    }
    var previousIndex := s.currentIndex - 1;
    var d := RebuildFromHistory(Lookup(s.history, previousIndex));
    r := State(d, s.history, previousIndex);
  }

  /** `REDO`: unless at the newest entry (or with an empty history), step the
      cursor forward and rebuild the design from the entry it now points at. */
  method RedoStep(s: State) returns (r: State)
    ensures BufferOf(r) == History.Redo(BufferOf(s))
    ensures |s.history| == 0 || s.currentIndex >= |s.history| - 1 ==> r == s
    ensures !(|s.history| == 0 || s.currentIndex >= |s.history| - 1) ==> RestoredFrom(r.design, Lookup(s.history, s.currentIndex + 1))
    ensures BufferOf(s).WellFormed() ==> BufferOf(r).WellFormed()
  {
    History.RedoSpec(BufferOf(s));
    if |s.history| == 0 || s.currentIndex >= |s.history| - 1 {
      return s;
    }
    var nextIndex := s.currentIndex + 1;
    var d := RebuildFromHistory(Lookup(s.history, nextIndex));
    r := State(d, s.history, nextIndex);
  }

  /** `cakeReducer`. `freshId` stands for the identifier `ADD_ELEMENT` draws
      from the clock and a random number. A thrown exception is a `Failure`. */
  method CakeReducer(s: State, a: Action, freshId: string) returns (r: Result<State, Error>)
    ensures a.SetBaseStyle? ==>
              r == Failure(if Nullish(a.cakeModelProps) then PropertyOfNothing("name") else NotAFunction("setTextures"))
    ensures a.SetCakeType? && RendersCake(a.cakeModelProps) ==> r == Failure(NotAFunction("setTextures"))
    ensures a.SetCakeType? && !RendersCake(a.cakeModelProps) ==> r == AddToHistory(WithAttr(s, CakeType, a.payload))
    ensures EditOf(a).Some? ==> r == AddToHistory(WithAttr(s, EditOf(a).value.field, EditOf(a).value.payload))
    ensures a.AddElement? && Nullish(a.cakeModelProps) ==> r == Failure(PropertyOfNothing("path"))
    ensures a.AddElement? && !Nullish(a.cakeModelProps) ==> (r.Success? <==> AllLive(s.design.elements))
    ensures a.AddElement? && r.Success? ==>
              var n := |s.design.elements|;
              var es := r.value.design.elements;
              && |es| == n + 1 && es[..n] == s.design.elements
              && es[n].LiveElement? && fresh(es[n].model)
              && es[n].model.Fields() == NewElementFields(a.cakeModelProps, freshId)
              && r == AddToHistory(WithElements(s, es))
    ensures a.RemoveElement? ==> r == AddToHistory(WithElements(s, RemoveAll(s.design.elements, a.target)))
    ensures a.SetMessageScale? ==> r == Success(MessageScaleStep(s, a.payload))
    ensures a.Undo? ==> r.Success? && BufferOf(r.value) == History.Undo(BufferOf(s))
    ensures a.Undo? && (|s.history| == 0 || s.currentIndex <= 0) ==> r == Success(s)
    ensures a.Undo? && !(|s.history| == 0 || s.currentIndex <= 0) ==>
              RestoredFrom(r.value.design, Lookup(s.history, s.currentIndex - 1))
    ensures a.Redo? ==> r.Success? && BufferOf(r.value) == History.Redo(BufferOf(s))
    ensures a.Redo? && (|s.history| == 0 || s.currentIndex >= |s.history| - 1) ==> r == Success(s)
    ensures a.Redo? && !(|s.history| == 0 || s.currentIndex >= |s.history| - 1) ==>
              RestoredFrom(r.value.design, Lookup(s.history, s.currentIndex + 1))
    ensures a.Reset? ==> r == Success(InitialState())
    ensures a.UpdateCakePlacement? ==> r == Success(PlacementStep(s, a.payload))
    ensures a.Unknown? ==> r == Success(s)
    ensures BufferOf(s).WellFormed() && r.Success? ==> BufferOf(r.value).WellFormed()
  {
    match a {
      case SetBaseStyle(payload, style) =>
        if Nullish(style) {
          r := Failure(PropertyOfNothing("name"));
        } else {
          var rendered := RenderCake(Get(style, "name"), Get(style, "path"), Get(style, "position"),
                                     Get(style, "color"), Get(style, "targetedMeshName"), Get(style, "textures"),
                                     Get(style, "price"), AttrOf(s.design.attrs, Message));
          r := Failure(rendered.error);
        }
      case SetCakeType(payload, cake) =>
        if RendersCake(cake) {
          var rendered := RenderCake(Get(cake, "name"), Get(cake, "path"), Get(cake, "position"),
                                     Get(cake, "color"), Get(cake, "targetedMeshName"), Get(cake, "textures"),
                                     Get(cake, "price"), AttrOf(s.design.attrs, Message));
          r := Failure(rendered.error);
        } else {
          r := AddToHistory(WithAttr(s, CakeType, payload));
        }
      case AddElement(props) =>
        r := AddElementStep(s, props, freshId);
      case RemoveElement(target) =>
        r := AddToHistory(WithElements(s, RemoveAll(s.design.elements, target)));
      case SetMessageScale(payload) =>
        r := Success(MessageScaleStep(s, payload));
      case Undo =>
        var next := UndoStep(s);
        r := Success(next);
      case Redo =>
        var next := RedoStep(s);
        r := Success(next);
      case Reset =>
        r := Success(InitialState());
      case UpdateCakePlacement(payload) =>
        r := Success(PlacementStep(s, payload));
      case Unknown(_) =>
        r := Success(s);
      case _ =>
        var edit := EditOf(a).value;
        r := AddToHistory(WithAttr(s, edit.field, edit.payload));
    }
  }

  // ------------------------------------------------------------ properties

  /** Removal by identity distributes over concatenation: the surviving
      elements keep their relative order. */
  lemma {:induction false} RemoveAllAppend(a: seq<ElementSlot>, b: seq<ElementSlot>, target: ElementModel)
    ensures RemoveAll(a + b, target) == RemoveAll(a, target) + RemoveAll(b, target)
    decreases |a|
  {
    if a == [] {
      assert a + b == b;
    } else {
      assert (a + b)[0] == a[0];
      assert (a + b)[1..] == a[1..] + b;
      RemoveAllAppend(a[1..], b, target);
    }
  }

  /** Every occurrence of the removed element goes and every other entry stays
      as often as it was there. */
  lemma {:induction false} RemoveAllCounts(es: seq<ElementSlot>, target: ElementModel)
    ensures multiset(RemoveAll(es, target)) == multiset(es)[LiveElement(target) := 0]
    decreases |es|
  {
    if es != [] {
      RemoveAllCounts(es[1..], target);
      assert es == [es[0]] + es[1..];
    }
  }

  /** Removing an element that is not in the design keeps the list as it is
      (but `REMOVE_ELEMENT` still commits a history entry). */
  lemma {:induction false} RemoveAllAbsent(es: seq<ElementSlot>, target: ElementModel)
    requires LiveElement(target) !in es
    ensures RemoveAll(es, target) == es
    decreases |es|
  {
    if es != [] {
      assert es[0] in es;
      assert forall x :: x in es[1..] ==> x in es;
      RemoveAllAbsent(es[1..], target);
    }
  }

  /** `ADD_ELEMENT` with props holding only a path: an element named
      "Element" at the origin, white, on the "default" mesh, priced 0, with no
      scale or textures; the name otherwise falls back from `name` to `id`. */
  lemma NewElementDefaults(path: Json, props: Option<Json>, uniqueId: string)
    ensures var f := NewElementFields(Some(JObj(map["path" := path])), uniqueId);
            && f.path == Some(path) && f.uniqueId == uniqueId && f.textures == None
            && f.props == ElementProps(Some(JStr("Element")), Some(Origin), Some(JStr("#FFFFFF")),
                                       Some(JStr("default")), Some(JNum(0.0)), None)
    ensures var name := NewElementFields(props, uniqueId).props.name;
            && (Truthy(Get(props, "name")) ==> name == Get(props, "name"))
            && (!Truthy(Get(props, "name")) && Truthy(Get(props, "id")) ==> name == Get(props, "id"))
            && (!Truthy(Get(props, "name")) && !Truthy(Get(props, "id")) ==> name == Some(JStr("Element")))
  {
  }

  /** `SET_MESSAGE_SCALE` records the state as it was before the change:
      the entry under the new cursor holds the old fields (the old scale
      among them) and the previous history, while the live design has the
      new scale. A committing action records the new design instead. */
  lemma MessageScaleRecordsPreviousState(s: State, payload: Option<Json>)
    requires BufferOf(s).Valid()
    ensures var r := MessageScaleStep(s, payload);
            && 0 <= r.currentIndex < |r.history|
            && r.history[r.currentIndex] == Raw(s)
            && HistoricalAttrs(r.history[r.currentIndex]) == s.design.attrs
            && AttrOf(HistoricalAttrs(r.history[r.currentIndex]), MessageScale) == AttrOf(s.design.attrs, MessageScale)
            && AttrOf(r.design.attrs, MessageScale) == payload
  {
  }

  /** Encoding a design into a snapshot and rebuilding it gives back the same
      fields, the same elements in the same order with the same identifiers,
      paths and properties (as new objects, without textures), and the cake
      model as the plain data of a JSON round trip. */
  lemma SnapshotRoundTrip(d: Design, sn: Snapshot, d2: Design)
    requires SnapshotOf(d, sn) && RestoredFrom(d2, Some(Snap(sn)))
    ensures d2.attrs == d.attrs
    ensures d2.cakeModel == if d.cakeModel.LiveCake? then PlainCake(d.cakeModel.model.PlainRecord()) else d.cakeModel
    ensures |d2.elements| == |d.elements|
    ensures forall i :: 0 <= i < |d.elements| ==>
              && d.elements[i].LiveElement? && d2.elements[i].LiveElement?
              && d2.elements[i].model.Fields() == d.elements[i].model.Fields().(textures := None)
  {
  }

  /** Commit A, commit B, undo, commit C, through the reducer from the
      initial state: two entries, A's and C's, with the cursor on C's. */
  method BranchScenario(a: Json, b: Json, c: Json, freshId: string) returns (r: Result<State, Error>)
    ensures r.Success?
    ensures |r.value.history| == 2 && r.value.currentIndex == 1
    ensures AttrOf(HistoricalAttrs(r.value.history[0]), Message) == Some(a)
    ensures AttrOf(HistoricalAttrs(r.value.history[1]), Message) == Some(c)
  {
    var s0 := InitialState();
    var r1 := CakeReducer(s0, SetMessage(Some(a)), freshId);
    assert AllLive(WithAttr(s0, Message, Some(a)).design.elements);
    var s1 := r1.value;
    assert s1.history[0].Snap? && s1.history[0].snapshot.attrs == SetAttr(s0.design.attrs, Message, Some(a));
    var r2 := CakeReducer(s1, SetMessage(Some(b)), freshId);
    assert AllLive(WithAttr(s1, Message, Some(b)).design.elements);
    var s2 := r2.value;
    assert s2.history[..1] == s1.history[..1];
    assert s2.history[0] == s1.history[0];
    var r3 := CakeReducer(s2, Undo, freshId);
    var s3 := r3.value;
    assert s3.currentIndex == 0 && s3.history == s2.history;
    assert |s3.design.elements| == 0;
    var r4 := CakeReducer(s3, SetMessage(Some(c)), freshId);
    assert AllLive(WithAttr(s3, Message, Some(c)).design.elements);
    r := r4;
    assert r.value.history[..1] == s3.history[..1];
    assert r.value.history[0] == s1.history[0];
  }
}
