/**
 ClipDescriptor::AudioProcessorHolder: one processor of a clip's audio chain,
 its automation parameters, and the tree node that persists both.
 */
module ProcessorHolder {
  import opened Wrappers
  import opened ValueTree
  import opened Host

  const AudioProcessorType := "AudioProcessor"
  const IdentifierKey := "Identifier"
  const NameKey := "Name"
  const ParameterType := "Parameter"
  const ValueKey := "Value"
  const KeyframeType := "Keyframe"
  const TimeKey := "Time"
  const PluginStatusKey := "PluginStatus"

  /** Prefix of the identity recorded for processors that are not plugins. */
  const BuiltinPrefix := "BUILTIN: "

  /** Status recorded when a holder is restored while the owner has no engine. */
  const EngineMissing := "Video engine not present"

  /** The processor (none when it is null), its automation parameters, and the
      node it persists to. The status string lives in that node. */
  datatype Holder = Holder(processor: Option<Processor>, parameters: seq<Automation>, state: Node)

  /** The automation parameters kept for a processor's parameters: those of
      the automatable ones, in the processor's order. */
  function Automatable(ps: seq<Parameter>): (r: seq<Automation>)
    ensures |r| <= |ps|
    ensures forall i :: 0 <= i < |ps| && ps[i].automatable ==> ps[i].automation in r
    ensures forall a :: a in r ==> exists i :: 0 <= i < |ps| && ps[i].automatable && ps[i].automation == a
  {
    if ps == [] then []
    else
      var rest := Automatable(ps[1..]);
      assert forall a :: a in rest ==> exists i :: 1 <= i < |ps| && ps[i].automatable && ps[i].automation == a by {
        forall a | a in rest
          ensures exists i :: 1 <= i < |ps| && ps[i].automatable && ps[i].automation == a
        {
          var i :| 0 <= i < |ps[1..]| && ps[1..][i].automatable && ps[1..][i].automation == a;
          assert ps[i + 1] == ps[1..][i];
        }
      }
      if ps[0].automatable then [ps[0].automation] + rest else rest
  }

  /** The holder invariant: a null processor has no automation parameters, a
      live one has one per automatable parameter. */
  predicate Valid(h: Holder)
  {
    match h.processor
    case None => h.parameters == []
    case Some(p) => h.parameters == Automatable(p.parameters)
  }

  /** The identity string persisted for a processor: the plugin identifier,
      or the built-in prefix followed by the processor's name. */
  function Identity(p: Processor): string
  {
    match p.pluginIdentifier
    case Some(id) => id
    case None => BuiltinPrefix + p.name
  }

  function KeyframeNode(k: Keyframe): Node
  {
    Node(KeyframeType, map[TimeKey := Real(k.time), ValueKey := Real(k.value)], [])
  }

  /** The `Parameter` node for one automation parameter, with one `Keyframe`
      child per keyframe. */
  function ParameterNode(a: Automation): Node
  {
    Node(ParameterType, map[NameKey := Text(a.name), ValueKey := Real(a.value)],
         seq(|a.keyframes|, i requires 0 <= i < |a.keyframes| => KeyframeNode(a.keyframes[i])))
  }

  /** The holder built around a live processor (or a null one). */
  function FromProcessor(p: Option<Processor>): (h: Holder)
    ensures Valid(h) && h.processor == p
    ensures h.state.kind == AudioProcessorType
    ensures p.None? ==> h.state.props == map[] && h.state.children == []
    ensures p.Some? ==>
      && h.state.props.Keys == {NameKey, IdentifierKey}
      && GetProperty(h.state, NameKey, Void) == Text(p.value.name)
      && GetProperty(h.state, IdentifierKey, Void) == Text(Identity(p.value))
    ensures |h.state.children| == |h.parameters|
    ensures forall i :: 0 <= i < |h.state.children| ==> h.state.children[i].kind == ParameterType
  {
    match p
    case None => Holder(None, [], Node(AudioProcessorType, map[], []))
    case Some(proc) =>
      var params := Automatable(proc.parameters);
      var props := map[NameKey := Text(proc.name), IdentifierKey := Text(Identity(proc))];
      Holder(p, params, Node(AudioProcessorType, props,
                             seq(|params|, i requires 0 <= i < |params| => ParameterNode(params[i]))))
  }

  /** The holder restored from a persisted node: the engine resolves the
      node's identifier, and the status it reports is written into the node. */
  function FromNode(node: Node, owner: Owner): (h: Holder)
    ensures Valid(h)
    ensures HasProperty(h.state, PluginStatusKey)
    ensures SameExcept(node, h.state, PluginStatusKey)
    ensures owner.engine.None? ==>
      h.processor.None? && GetProperty(h.state, PluginStatusKey, Void) == Text(EngineMissing)
    ensures owner.engine.Some? ==>
      var res := owner.engine.value.createAudioPluginInstance(
                   GetProperty(node, IdentifierKey, Void), owner.sampleRate, owner.defaultBufferSize);
      h.processor == res.processor && GetProperty(h.state, PluginStatusKey, Void) == Text(res.error)
  {
    var identifier := GetProperty(node, IdentifierKey, Void);
    match owner.engine
    case None => Holder(None, [], SetProperty(node, PluginStatusKey, Text(EngineMissing)))
    case Some(engine) =>
      var res := engine.createAudioPluginInstance(identifier, owner.sampleRate, owner.defaultBufferSize);
      var state := SetProperty(node, PluginStatusKey, Text(res.error));
      match res.processor
      case None => Holder(None, [], state)
      case Some(proc) => Holder(res.processor, Automatable(proc.parameters), state)
  }

  /** AudioProcessorHolder::getProcessorState. */
  function GetProcessorState(h: Holder): Node
  {
    h.state
  }

  /** The state a holder reports is the node it was built on: a holder
      restored from a node reports that node with only its PluginStatus
      written, and a holder built around a processor reports the node that
      records the processor's name and identity. */
  lemma ProcessorStateIsHolderNode(node: Node, owner: Owner, p: Processor)
    ensures SameExcept(node, GetProcessorState(FromNode(node, owner)), PluginStatusKey)
    ensures HasProperty(GetProcessorState(FromNode(node, owner)), PluginStatusKey)
    ensures var s := GetProcessorState(FromProcessor(Some(p)));
      && s.kind == AudioProcessorType
      && GetProperty(s, NameKey, Void) == Text(p.name)
      && GetProperty(s, IdentifierKey, Void) == Text(Identity(p))
  {
  }

  /** One AutomationParameter::updateProcessor call: which parameter, at
      which playback position. */
  datatype AutomationUpdate = AutomationUpdate(parameter: Automation, position: real)

  /** AudioProcessorHolder::updateAutomation: the calls it makes, in order. */
  method UpdateAutomation(h: Holder, pts: real) returns (updates: seq<AutomationUpdate>)
    ensures |updates| == |h.parameters|
    ensures forall i :: 0 <= i < |updates| ==> updates[i] == AutomationUpdate(h.parameters[i], pts)
  {
    updates := [];
    var i := 0;
    while i < |h.parameters|
      invariant 0 <= i <= |h.parameters|
      invariant |updates| == i
      invariant forall j :: 0 <= j < i ==> updates[j] == AutomationUpdate(h.parameters[j], pts)
    {
      updates := updates + [AutomationUpdate(h.parameters[i], pts)];
      i := i + 1;
    }
  }

  // Reading a persisted holder node back: the inverse of the serialisation
  // above, used to state what that serialisation preserves.

  function ReadKeyframe(n: Node): Keyframe
  {
    Keyframe(AsReal(GetProperty(n, TimeKey, Void)), AsReal(GetProperty(n, ValueKey, Void)))
  }

  function ReadAutomation(n: Node): Automation
  {
    Automation(AsText(GetProperty(n, NameKey, Void)), AsReal(GetProperty(n, ValueKey, Void)),
               seq(|n.children|, i requires 0 <= i < |n.children| => ReadKeyframe(n.children[i])))
  }

  function ReadParameters(state: Node): seq<Automation>
  {
    seq(|state.children|, i requires 0 <= i < |state.children| => ReadAutomation(state.children[i]))
  }

  /** Keeping the automatable parameters respects concatenation, so the
      holder's parameters keep the processor's order. */
  lemma {:induction false} AutomatableKeepsOrder(a: seq<Parameter>, b: seq<Parameter>)
    ensures Automatable(a + b) == Automatable(a) + Automatable(b)
    decreases |a|
  {
    if a == [] {
      assert a + b == b;
    } else {
      assert (a + b)[1..] == a[1..] + b;
      AutomatableKeepsOrder(a[1..], b);
    }
  }

  /** The node of a holder built from a live processor records every
      automation parameter, with its value and all its keyframes in order. */
  lemma SerialisedParametersRoundTrip(p: Option<Processor>)
    ensures ReadParameters(GetProcessorState(FromProcessor(p))) == FromProcessor(p).parameters
  {
    var h := FromProcessor(p);
    var read := ReadParameters(h.state);
    assert |read| == |h.parameters|;
    forall i | 0 <= i < |read|
      ensures read[i] == h.parameters[i]
    {
      var a := h.parameters[i];
      var n := h.state.children[i];
      assert n == ParameterNode(a);
      assert ReadAutomation(n).keyframes == a.keyframes;
    }
  }

  /** Restoring a holder from the node of a holder built from a live
      processor asks the engine for exactly the identity that was recorded,
      and keeps the recorded name and identity. */
  lemma RestoredIdentityRoundTrip(p: Processor, owner: Owner)
    ensures var restored := FromNode(GetProcessorState(FromProcessor(Some(p))), owner);
      && GetProperty(GetProcessorState(restored), IdentifierKey, Void) == Text(Identity(p))
      && GetProperty(GetProcessorState(restored), NameKey, Void) == Text(p.name)
      && (owner.engine.Some? ==>
            restored.processor
              == owner.engine.value.createAudioPluginInstance(Text(Identity(p)), owner.sampleRate, owner.defaultBufferSize).processor)
  {
  }
}
