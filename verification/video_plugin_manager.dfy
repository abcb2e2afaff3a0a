/** The registry of video processor factories: identifier strings mapped to
    factories, lookup by identifier, and the numbered menu of identifiers. */
module VideoPluginManager {
  import opened Wrappers

  /** A video processor, known here only by the plugin name it reports. */
  datatype VideoProcessor = VideoProcessor(pluginName: string)

  /** A zero-argument factory. Every call makes the same kind of processor,
      so a factory is characterised by what it returns: a processor, or
      none when it returns an empty pointer. */
  datatype Factory = Factory(product: Option<VideoProcessor>)

  datatype Manager = Manager(factories: map<string, Factory>)

  /** The outcome of createVideoPluginInstance: the new instance (null when
      the identifier is unknown) and the error string the caller passed in. */
  datatype Lookup = Lookup(instance: Option<VideoProcessor>, error: string)

  /** One entry of the plugin selection menu. */
  datatype MenuItem = MenuItem(id: int, text: string)

  const BuiltinPrefix := "BUILTIN: "
  const PluginNotKnown := "Plugin not known"

  /** The identifier under which the built-in colour curve processor is registered. */
  function BuiltinIdentifier(colourCurveName: string): string
  {
    BuiltinPrefix + colourCurveName
  }

  /** The constructor: a registry holding only the built-in colour curve
      processor, whose plugin name is `colourCurveName`. */
  function NewManager(colourCurveName: string): (m: Manager)
    ensures m.factories.Keys == {BuiltinIdentifier(colourCurveName)}
    ensures m.factories[BuiltinIdentifier(colourCurveName)].product == Some(VideoProcessor(colourCurveName))
  {
    Register(Manager(map[]), BuiltinIdentifier(colourCurveName), Factory(Some(VideoProcessor(colourCurveName))))
  }

  /** registerVideoProcessor: `id` now maps to `f`, whether or not it was
      registered before; every other identifier keeps its factory. */
  function Register(m: Manager, id: string, f: Factory): (r: Manager)
    ensures r.factories.Keys == m.factories.Keys + {id}
    ensures r.factories[id] == f
    ensures forall k :: k in m.factories && k != id ==> r.factories[k] == m.factories[k]
  {
    Manager(m.factories[id := f])
  }

  /** createVideoPluginInstance: a registered identifier yields whatever its
      factory returns (null included) and clears the error; an unknown one
      yields null and "Plugin not known". The registry is not changed. */
  function CreateInstance(m: Manager, id: string): (r: Lookup)
    ensures r.error == "" <==> id in m.factories
    ensures id in m.factories ==> r.instance == m.factories[id].product
    ensures id !in m.factories ==> r.instance.None? && r.error == PluginNotKnown
  {
    if id in m.factories then Lookup(m.factories[id].product, "")
    else Lookup(None, PluginNotKnown)
  }

  /** `order` is the registry's iteration order: every identifier exactly once. */
  ghost predicate Enumerates(m: Manager, order: seq<string>)
  {
    && |order| == |m.factories.Keys|
    && (forall i, j :: 0 <= i < j < |order| ==> order[i] != order[j])
    && (forall i :: 0 <= i < |order| ==> order[i] in m.factories)
    && (forall k :: k in m.factories ==> k in order)
  }

  /** getPluginDescriptionFromMenuID: the identifier at position `index - 1`
      of the iteration order when that is a position of the registry,
      otherwise the empty string. */
  function DescriptionFromMenuId(m: Manager, order: seq<string>, index: int): (r: string)
    requires Enumerates(m, order)
    ensures r != "" ==> r in m.factories
    ensures !(1 <= index <= |m.factories.Keys|) ==> r == ""
  {
    if 0 <= index - 1 < |m.factories.Keys| then order[index - 1] else ""
  }

  /** The numbering rule of populatePluginSelection: the identifiers in
      iteration order, numbered from 1. Every item's number leads back to its
      text, and every registered identifier is on exactly one item. */
  method PopulatePluginSelection(m: Manager, order: seq<string>) returns (items: seq<MenuItem>)
    requires Enumerates(m, order)
    ensures |items| == |m.factories.Keys|
    ensures forall i :: 0 <= i < |items| ==> items[i].id == i + 1
    ensures forall i :: 0 <= i < |items| ==> DescriptionFromMenuId(m, order, items[i].id) == items[i].text
    ensures forall k :: k in m.factories ==> exists i :: 0 <= i < |items| && items[i].text == k
    ensures forall i, j :: 0 <= i < j < |items| ==> items[i].text != items[j].text
  {
    items := [];
    var i := 0;
    while i < |order|
      invariant 0 <= i <= |order|
      invariant |items| == i
      invariant forall j :: 0 <= j < i ==> items[j] == MenuItem(j + 1, order[j])
    {
      i := i + 1;
      items := items + [MenuItem(i, order[i - 1])];
    }
    forall k | k in m.factories
      ensures exists j :: 0 <= j < |items| && items[j].text == k
    {
      var j :| 0 <= j < |order| && order[j] == k;
      assert items[j].text == k;
    }
  }

  /** Menu numbers and identifiers are in one-to-one correspondence: every
      registered identifier has exactly one number in 1..n, and that number
      leads back to it. */
  lemma MenuIdsInvert(m: Manager, order: seq<string>, k: string)
    requires Enumerates(m, order)
    ensures k in m.factories <==> exists index :: 1 <= index <= |order| && DescriptionFromMenuId(m, order, index) == k
    ensures forall a, b ::
      (1 <= a <= |order| && 1 <= b <= |order| &&
       DescriptionFromMenuId(m, order, a) == k && DescriptionFromMenuId(m, order, b) == k) ==> a == b
  {
    if k in m.factories {
      var j :| 0 <= j < |order| && order[j] == k;
      assert DescriptionFromMenuId(m, order, j + 1) == k;
    }
  }

  /** A registration is immediately visible to lookup and to no other identifier. */
  lemma RegisterThenCreate(m: Manager, id: string, f: Factory, other: string)
    ensures CreateInstance(Register(m, id, f), id) == Lookup(f.product, "")
    ensures other != id ==> CreateInstance(Register(m, id, f), other) == CreateInstance(m, other)
  {
  }

  /** Registering under an identifier twice keeps only the second factory. */
  lemma RegisterOverwrites(m: Manager, id: string, f: Factory, g: Factory)
    ensures Register(Register(m, id, f), id, g) == Register(m, id, g)
  {
  }

  /** Right after construction the menu has one item, numbered 1, for the
      built-in colour curve processor, and it creates that processor. */
  lemma NewManagerMenu(colourCurveName: string, order: seq<string>)
    requires Enumerates(NewManager(colourCurveName), order)
    ensures order == [BuiltinIdentifier(colourCurveName)]
    ensures DescriptionFromMenuId(NewManager(colourCurveName), order, 1) == BuiltinIdentifier(colourCurveName)
    ensures CreateInstance(NewManager(colourCurveName), order[0]).instance == Some(VideoProcessor(colourCurveName))
  {
  }
}
