/**
 ClipDescriptor: one clip placed on a ComposedClip's timeline. Its timing lives
 in a property tree; its audio processors form a runtime chain that the tree
 mirrors. Every operation is a pure transition on an immutable descriptor; the
 `manualStateChange` guard is an explicit field, and the tree callbacks JUCE
 would deliver synchronously are called explicitly where the tree changes.
 */
module ClipDescriptor {
  import opened Wrappers
  import opened ValueTree
  import opened Host
  import opened ProcessorHolder

  // Tree types and property names of the clip node (declared in a header that
  // is not part of this model; only their distinctness matters).
  const ClipType := "Clip"
  const SourceKey := "source"
  const VideoProcessorsType := "VideoProcessors"
  const AudioProcessorsType := "AudioProcessors"
  const DescriptionKey := "description"
  const StartKey := "start"
  const LengthKey := "length"
  const OffsetKey := "offset"
  const VideoLineKey := "videoLine"
  const AudioLineKey := "audioLine"

  /** Description reported when the tree has none. */
  const Unnamed := "unnamed"

  /** Index passed by callers of addAudioProcessor that give none: past the end. */
  const DefaultIndex: int := -1

  /** The descriptor's state: the clip handle (none when null), its tree, the
      runtime audio chain, the re-entrancy guard and the cached sample counts. */
  datatype Descriptor = Descriptor(
    clip: Option<Clip>,
    state: Node,
    audioProcessors: seq<Holder>,
    manualStateChange: bool,
    startInSamples: int,
    lengthInSamples: int,
    offsetInSamples: int)

  /** The nodes listed under the clip's `AudioProcessors` child; none when
      the clip has no such child. */
  function Listed(n: Node): seq<Node>
  {
    match FirstOfType(n, AudioProcessorsType)
    case Some(k) => n.children[k].children
    case None => []
  }

  /** The tree mirrors the runtime chain: the processor list exists and holds
      each holder's node, in chain order. */
  ghost predicate Mirrors(d: Descriptor)
  {
    && FirstOfType(d.state, AudioProcessorsType).Some?
    && |Listed(d.state)| == |d.audioProcessors|
    && forall i :: 0 <= i < |d.audioProcessors| ==> Listed(d.state)[i] == d.audioProcessors[i].state
  }

  // ---------------------------------------------------------------------------
  // Sequence positions

  /** The runtime chain's insertion rule: at `index` when it is a position
      inside the chain, otherwise at the end. */
  function InsertAt<T>(s: seq<T>, x: T, index: int): (r: seq<T>)
    ensures |r| == |s| + 1
    ensures var p := InsertPosition(|s|, index);
      r[p] == x && r[..p] == s[..p] && r[p + 1..] == s[p..]
  {
    if 0 <= index < |s| then s[..index] + [x] + s[index..] else s + [x]
  }

  /** Erasing element `index` of a sequence. */
  function RemoveAt<T>(s: seq<T>, index: nat): (r: seq<T>)
    requires index < |s|
    ensures |r| == |s| - 1
    ensures forall j :: 0 <= j < index ==> r[j] == s[j]
    ensures forall j :: index <= j < |r| ==> r[j] == s[j + 1]
  {
    s[..index] + s[index + 1..]
  }

  /** Erasing the element the insertion put in gives back the original chain. */
  lemma InsertThenRemove<T>(s: seq<T>, x: T, index: int)
    ensures RemoveAt(InsertAt(s, x, index), InsertPosition(|s|, index)) == s
  {
    var p := InsertPosition(|s|, index);
    var r := InsertAt(s, x, index);
    assert r == s[..p] + [x] + s[p..] by {
      assert r[..p] == s[..p];
      assert r[p + 1..] == s[p..];
      assert r == r[..p] + [r[p]] + r[p + 1..];
    }
    assert s == s[..p] + s[p..];
  }

  // ---------------------------------------------------------------------------
  // Construction

  /** The constructor from a media clip: a fresh tree with the media path
      (when there is one) and empty processor lists. */
  function Fresh(c: Clip): (d: Descriptor)
    ensures d.clip == Some(c) && d.audioProcessors == [] && !d.manualStateChange
    ensures d.state.kind == ClipType
    ensures HasProperty(d.state, SourceKey) <==> c.mediaPath != ""
    ensures c.mediaPath != "" ==> GetProperty(d.state, SourceKey, Void) == Text(c.mediaPath)
    ensures FirstOfType(d.state, VideoProcessorsType).Some?
    ensures Listed(d.state) == [] && Mirrors(d)
    ensures d.startInSamples == 0 && d.lengthInSamples == 0 && d.offsetInSamples == 0
  {
    var empty := Node(ClipType, map[], []);
    var sourced := if c.mediaPath != "" then SetProperty(empty, SourceKey, Text(c.mediaPath)) else empty;
    var withVideo := GetOrCreateChild(sourced, VideoProcessorsType).0;
    var withAudio := GetOrCreateChild(withVideo, AudioProcessorsType);
    assert withAudio.0.children[0].kind == VideoProcessorsType;
    Descriptor(Some(c), withAudio.0, [], false, 0, 0, 0)
  }

  /** The constructor from a persisted tree. Only when the tree names a
      source and the owner has an engine is the clip opened and each listed
      processor node turned into a holder, appended in list order; each holder
      shares its node, so the status it records shows in the tree. The guard
      is set throughout and restored to false at the end. */
  function Reconstruct(node: Node, owner: Owner): (d: Descriptor)
    ensures !d.manualStateChange
    ensures d.startInSamples == 0 && d.lengthInSamples == 0 && d.offsetInSamples == 0
    ensures !(HasProperty(node, SourceKey) && owner.engine.Some?) ==>
      d.clip.None? && d.state == node && d.audioProcessors == []
    ensures HasProperty(node, SourceKey) && owner.engine.Some? ==>
      && d.clip == owner.engine.value.createClipFromFile(GetProperty(node, SourceKey, Void))
      && d.state.kind == node.kind && d.state.props == node.props
      && |d.audioProcessors| == |Listed(node)|
      && (forall i :: 0 <= i < |d.audioProcessors| ==> d.audioProcessors[i] == FromNode(Listed(node)[i], owner))
      && Mirrors(d)
  {
    if HasProperty(node, SourceKey) && owner.engine.Some? then
      var clip := owner.engine.value.createClipFromFile(GetProperty(node, SourceKey, Void));
      var found := GetOrCreateChild(node, AudioProcessorsType);
      var list := found.0.children[found.1];
      var holders := seq(|list.children|, i requires 0 <= i < |list.children| => FromNode(list.children[i], owner));
      var shared := list.(children := seq(|holders|, i requires 0 <= i < |holders| => holders[i].state));
      Descriptor(clip, ReplaceChild(found.0, found.1, shared), holders, false, 0, 0, 0)
    else
      Descriptor(None, node, [], false, 0, 0, 0)
  }

  // ---------------------------------------------------------------------------
  // Timing properties

  function GetDescription(d: Descriptor): (r: string)
    ensures !HasProperty(d.state, DescriptionKey) ==> r == Unnamed
  {
    AsText(GetProperty(d.state, DescriptionKey, Text(Unnamed)))
  }

  function GetStart(d: Descriptor): (r: real)
    ensures !HasProperty(d.state, StartKey) ==> r == 0.0
  {
    AsReal(GetProperty(d.state, StartKey, Real(0.0)))
  }

  function GetLength(d: Descriptor): (r: real)
    ensures !HasProperty(d.state, LengthKey) ==> r == 0.0
  {
    AsReal(GetProperty(d.state, LengthKey, Real(0.0)))
  }

  function GetOffset(d: Descriptor): (r: real)
    ensures !HasProperty(d.state, OffsetKey) ==> r == 0.0
  {
    AsReal(GetProperty(d.state, OffsetKey, Real(0.0)))
  }

  function GetVideoLine(d: Descriptor): (r: int)
    ensures !HasProperty(d.state, VideoLineKey) ==> r == 0
  {
    AsInt(GetProperty(d.state, VideoLineKey, Real(0.0)))
  }

  function GetAudioLine(d: Descriptor): (r: int)
    ensures !HasProperty(d.state, AudioLineKey) ==> r == 0
  {
    AsInt(GetProperty(d.state, AudioLineKey, Real(0.0)))
  }

  /** A duration in seconds as a sample count at `rate`: the product,
      truncated as the assignment to the 64-bit count truncates it. */
  function Samples(rate: real, seconds: real): int
  {
    Truncate(rate * seconds)
  }

  /** The cached sample counts are the clip's sample rate times the stored
      seconds, truncated. */
  ghost predicate SampleCountsCurrent(d: Descriptor)
  {
    && d.clip.Some?
    && d.startInSamples == Samples(d.clip.value.sampleRate, GetStart(d))
    && d.lengthInSamples == Samples(d.clip.value.sampleRate, GetLength(d))
    && d.offsetInSamples == Samples(d.clip.value.sampleRate, GetOffset(d))
  }

  /** updateSampleCounts: recompute the cached counts; dereferences the clip. */
  function UpdateSampleCounts(d: Descriptor): (r: Descriptor)
    requires d.clip.Some?
    ensures SampleCountsCurrent(r)
    ensures r.clip == d.clip && r.state == d.state && r.audioProcessors == d.audioProcessors
    ensures r.manualStateChange == d.manualStateChange
  {
    var rate := d.clip.value.sampleRate;
    var start := AsReal(GetProperty(d.state, StartKey, Void));
    var length := AsReal(GetProperty(d.state, LengthKey, Void));
    var offset := AsReal(GetProperty(d.state, OffsetKey, Void));
    assert start == GetStart(d) && length == GetLength(d) && offset == GetOffset(d);
    d.(startInSamples := Samples(rate, start),
       lengthInSamples := Samples(rate, length),
       offsetInSamples := Samples(rate, offset))
  }

  /** valueTreePropertyChanged: a change on the clip's own node (the empty
      path) recomputes the sample counts; a change anywhere below it is
      ignored. */
  function OnPropertyChanged(d: Descriptor, path: seq<nat>): (r: Descriptor)
    requires path == [] ==> d.clip.Some?
    ensures path != [] ==> r == d
    ensures path == [] ==> SampleCountsCurrent(r)
    ensures r.clip == d.clip && r.state == d.state && r.audioProcessors == d.audioProcessors
    ensures r.manualStateChange == d.manualStateChange
  {
    if path != [] then d else UpdateSampleCounts(d)
  }

  /** A setter's write to the clip's own node, followed by the change
      notification JUCE sends when the value differs. */
  function WriteOwnProperty(d: Descriptor, key: string, v: Value): (r: Descriptor)
    requires d.clip.Some? || !Changes(d.state, key, v)
    ensures HasProperty(r.state, key) && GetProperty(r.state, key, Void) == v
    ensures SameExcept(d.state, r.state, key)
    ensures r.clip == d.clip && r.audioProcessors == d.audioProcessors
    ensures r.manualStateChange == d.manualStateChange
    ensures Changes(d.state, key, v) ==> SampleCountsCurrent(r)
    ensures SampleCountsCurrent(d) ==> SampleCountsCurrent(r)
  {
    var written := d.(state := SetProperty(d.state, key, v));
    if Changes(d.state, key, v) then OnPropertyChanged(written, [])
    else assert written.state.props == d.state.props; written
  }

  function SetDescription(d: Descriptor, name: string): (r: Descriptor)
    requires d.clip.Some? || !Changes(d.state, DescriptionKey, Text(name))
    ensures GetDescription(r) == name
    ensures SameExcept(d.state, r.state, DescriptionKey)
    ensures r.clip == d.clip && r.audioProcessors == d.audioProcessors
    ensures r.manualStateChange == d.manualStateChange
    ensures SampleCountsCurrent(d) ==> SampleCountsCurrent(r)
  {
    WriteOwnProperty(d, DescriptionKey, Text(name))
  }

  function SetStart(d: Descriptor, s: real): (r: Descriptor)
    requires d.clip.Some? || !Changes(d.state, StartKey, Real(s))
    ensures GetStart(r) == s
    ensures SameExcept(d.state, r.state, StartKey)
    ensures r.clip == d.clip && r.audioProcessors == d.audioProcessors
    ensures r.manualStateChange == d.manualStateChange
    ensures d.clip.Some? && (Changes(d.state, StartKey, Real(s)) || SampleCountsCurrent(d)) ==>
      SampleCountsCurrent(r)
  {
    WriteOwnProperty(d, StartKey, Real(s))
  }

  function SetLength(d: Descriptor, l: real): (r: Descriptor)
    requires d.clip.Some? || !Changes(d.state, LengthKey, Real(l))
    ensures GetLength(r) == l
    ensures SameExcept(d.state, r.state, LengthKey)
    ensures r.clip == d.clip && r.audioProcessors == d.audioProcessors
    ensures r.manualStateChange == d.manualStateChange
    ensures d.clip.Some? && (Changes(d.state, LengthKey, Real(l)) || SampleCountsCurrent(d)) ==>
      SampleCountsCurrent(r)
  {
    WriteOwnProperty(d, LengthKey, Real(l))
  }

  function SetOffset(d: Descriptor, o: real): (r: Descriptor)
    requires d.clip.Some? || !Changes(d.state, OffsetKey, Real(o))
    ensures GetOffset(r) == o
    ensures SameExcept(d.state, r.state, OffsetKey)
    ensures r.clip == d.clip && r.audioProcessors == d.audioProcessors
    ensures r.manualStateChange == d.manualStateChange
    ensures d.clip.Some? && (Changes(d.state, OffsetKey, Real(o)) || SampleCountsCurrent(d)) ==>
      SampleCountsCurrent(r)
  {
    WriteOwnProperty(d, OffsetKey, Real(o))
  }

  function SetVideoLine(d: Descriptor, line: int): (r: Descriptor)
    requires d.clip.Some? || !Changes(d.state, VideoLineKey, Int(line))
    ensures GetVideoLine(r) == line
    ensures SameExcept(d.state, r.state, VideoLineKey)
    ensures r.clip == d.clip && r.audioProcessors == d.audioProcessors
    ensures r.manualStateChange == d.manualStateChange
    ensures SampleCountsCurrent(d) ==> SampleCountsCurrent(r)
  {
    WriteOwnProperty(d, VideoLineKey, Int(line))
  }

  function SetAudioLine(d: Descriptor, line: int): (r: Descriptor)
    requires d.clip.Some? || !Changes(d.state, AudioLineKey, Int(line))
    ensures GetAudioLine(r) == line
    ensures SameExcept(d.state, r.state, AudioLineKey)
    ensures r.clip == d.clip && r.audioProcessors == d.audioProcessors
    ensures r.manualStateChange == d.manualStateChange
    ensures SampleCountsCurrent(d) ==> SampleCountsCurrent(r)
  {
    WriteOwnProperty(d, AudioLineKey, Int(line))
  }

  // ---------------------------------------------------------------------------
  // The audio processor chain

  /** valueTreeChildAdded: a node added to the processor list from outside
      becomes a holder at the node's position. The holder shares the node
      (its status shows in the tree); addAudioProcessor's own tree write is a
      no-op here, since JUCE's addChild ignores a node that is already a child
      of the list. Ignored while the guard is set or for any other parent. */
  function OnChildAdded(d: Descriptor, owner: Owner, parentKind: string, index: int): (r: Descriptor)
    requires !d.manualStateChange && parentKind == AudioProcessorsType ==> 0 <= index < |Listed(d.state)|
    ensures d.manualStateChange || parentKind != AudioProcessorsType ==> r == d
    ensures !d.manualStateChange && parentKind == AudioProcessorsType ==>
      var h := FromNode(Listed(d.state)[index], owner);
      && r.audioProcessors == InsertAt(d.audioProcessors, h, index)
      && Listed(r.state) == Listed(d.state)[index := h.state]
      && FirstOfType(r.state, AudioProcessorsType) == FirstOfType(d.state, AudioProcessorsType)
      && r.state.props == d.state.props && r.state.kind == d.state.kind
    ensures r.clip == d.clip && r.manualStateChange == d.manualStateChange
    ensures r.startInSamples == d.startInSamples && r.lengthInSamples == d.lengthInSamples
    ensures r.offsetInSamples == d.offsetInSamples
  {
    if d.manualStateChange || parentKind != AudioProcessorsType then d
    else
      var k := FirstOfType(d.state, AudioProcessorsType).value;
      var list := d.state.children[k];
      var h := FromNode(list.children[index], owner);
      var shared := d.(state := ReplaceChild(d.state, k, ReplaceChild(list, index, h.state)));
      shared.(audioProcessors := InsertAt(shared.audioProcessors, h, index))
  }

  /** addAudioProcessor for a holder whose node is not in the tree yet: the
      node is inserted into the processor list under the guard (the child-added
      callback it triggers is then ignored), the guard is restored, and the
      holder is inserted into the chain. Both insertion rules put the node and
      the holder at the same position. */
  function AddAudioProcessor(d: Descriptor, owner: Owner, h: Holder, index: int): (r: Descriptor)
    ensures r.audioProcessors == InsertAt(d.audioProcessors, h, index)
    ensures var p := InsertPosition(|Listed(d.state)|, index);
      Listed(r.state) == Listed(d.state)[..p] + [h.state] + Listed(d.state)[p..]
    ensures FirstOfType(r.state, AudioProcessorsType).Some?
    ensures FirstOfType(d.state, AudioProcessorsType).Some? ==>
      FirstOfType(r.state, AudioProcessorsType) == FirstOfType(d.state, AudioProcessorsType)
    ensures r.state.props == d.state.props && r.state.kind == d.state.kind
    ensures r.manualStateChange == d.manualStateChange
    ensures r.clip == d.clip
    ensures r.startInSamples == d.startInSamples && r.lengthInSamples == d.lengthInSamples
    ensures r.offsetInSamples == d.offsetInSamples
  {
    var guarded := d.(manualStateChange := true);
    var found := GetOrCreateChild(guarded.state, AudioProcessorsType);
    var k := found.1;
    var list := found.0.children[k];
    var written := guarded.(state := ReplaceChild(found.0, k, AddChild(list, h.state, index)));
    var notified := OnChildAdded(written, owner, AudioProcessorsType, InsertPosition(|list.children|, index));
    var restored := notified.(manualStateChange := d.manualStateChange);
    restored.(audioProcessors := InsertAt(restored.audioProcessors, h, index))
  }

  /** The addAudioProcessor overload taking a live processor: the holder is
      built around it first. */
  function AddLiveProcessor(d: Descriptor, owner: Owner, p: Option<Processor>, index: int): (r: Descriptor)
    ensures |r.audioProcessors| == |d.audioProcessors| + 1
    ensures r.audioProcessors[InsertPosition(|d.audioProcessors|, index)] == FromProcessor(p)
    ensures r.manualStateChange == d.manualStateChange
  {
    AddAudioProcessor(d, owner, FromProcessor(p), index)
  }

  /** removeAudioProcessor: erases one holder from the chain and leaves the
      tree alone. The index must name a holder. */
  function RemoveAudioProcessor(d: Descriptor, index: int): (r: Descriptor)
    requires 0 <= index < |d.audioProcessors|
    ensures r.audioProcessors == RemoveAt(d.audioProcessors, index)
    ensures r.state == d.state
    ensures r.clip == d.clip && r.manualStateChange == d.manualStateChange
    ensures r.startInSamples == d.startInSamples && r.lengthInSamples == d.lengthInSamples
    ensures r.offsetInSamples == d.offsetInSamples
  {
    d.(audioProcessors := d.audioProcessors[..index] + d.audioProcessors[index + 1..])
  }

  /** valueTreeChildRemoved as the source writes it: a removal from the
      processor list erases the holder at the same index, which the source
      does without checking that the chain has one there. */
  function OnChildRemovedAsWritten(d: Descriptor, parentKind: string, index: int): (r: Descriptor)
    requires !d.manualStateChange && parentKind == AudioProcessorsType ==> 0 <= index < |d.audioProcessors|
    ensures d.manualStateChange || parentKind != AudioProcessorsType ==> r == d
    ensures !d.manualStateChange && parentKind == AudioProcessorsType ==>
      r.audioProcessors == RemoveAt(d.audioProcessors, index)
    ensures r.state == d.state
  {
    if d.manualStateChange || parentKind != AudioProcessorsType then d
    else RemoveAudioProcessor(d, index)
  }

  /** valueTreeChildRemoved with the bounds check the chain needs: an index
      with no holder behind it changes nothing. */
  function OnChildRemoved(d: Descriptor, parentKind: string, index: int): (r: Descriptor)
    ensures d.manualStateChange || parentKind != AudioProcessorsType || !(0 <= index < |d.audioProcessors|) ==> r == d
    ensures !d.manualStateChange && parentKind == AudioProcessorsType && 0 <= index < |d.audioProcessors| ==>
      r.audioProcessors == RemoveAt(d.audioProcessors, index)
    ensures r.state == d.state && r.clip == d.clip && r.manualStateChange == d.manualStateChange
    ensures r.startInSamples == d.startInSamples && r.lengthInSamples == d.lengthInSamples
    ensures r.offsetInSamples == d.offsetInSamples
  {
    if d.manualStateChange || parentKind != AudioProcessorsType || !(0 <= index < |d.audioProcessors|) then d
    else RemoveAudioProcessor(d, index)
  }

  /** A node inserted into the processor list from outside the descriptor
      (undo, redo, an edit of the tree): JUCE inserts it and calls the
      child-added callback with the position it landed at. */
  function ExternalInsert(d: Descriptor, owner: Owner, node: Node, index: int): (r: Descriptor)
    requires FirstOfType(d.state, AudioProcessorsType).Some?
  {
    var k := FirstOfType(d.state, AudioProcessorsType).value;
    var list := d.state.children[k];
    var edited := d.(state := ReplaceChild(d.state, k, AddChild(list, node, index)));
    OnChildAdded(edited, owner, AudioProcessorsType, InsertPosition(|list.children|, index))
  }

  /** A node removed from the processor list from outside the descriptor:
      JUCE removes it and calls the child-removed callback with its old
      index; an index outside the list changes nothing and calls nothing. */
  function ExternalRemove(d: Descriptor, index: int): (r: Descriptor)
    requires FirstOfType(d.state, AudioProcessorsType).Some?
  {
    var k := FirstOfType(d.state, AudioProcessorsType).value;
    var list := d.state.children[k];
    if 0 <= index < |list.children| then
      OnChildRemoved(d.(state := ReplaceChild(d.state, k, RemoveChild(list, index))), AudioProcessorsType, index)
    else d
  }
}
