/**
 How the runtime audio chain and the tree's processor list stay in step: which
 operations keep the tree mirroring the chain, which one breaks it, what a
 reload restores, and what the cached sample counts follow.
 */
module ClipSync {
  import opened Wrappers
  import opened ValueTree
  import opened Host
  import opened ProcessorHolder
  import opened ClipDescriptor

  /** Inserting into the chain adds exactly the one holder and keeps the rest. */
  lemma InsertAddsExactlyOne<T>(s: seq<T>, x: T, index: int)
    ensures multiset(InsertAt(s, x, index)) == multiset(s) + multiset{x}
  {
    var p := InsertPosition(|s|, index);
    var r := InsertAt(s, x, index);
    assert r == r[..p] + [x] + r[p + 1..];
    assert s == s[..p] + s[p..];
  }

  /** addAudioProcessor constructs no second holder for its own tree write:
      the chain gains exactly the holder passed in, and the guard ends as it
      started. */
  lemma AddBuildsOneHolder(d: Descriptor, owner: Owner, h: Holder, index: int)
    ensures var r := AddAudioProcessor(d, owner, h, index);
      && |r.audioProcessors| == |d.audioProcessors| + 1
      && multiset(r.audioProcessors) == multiset(d.audioProcessors) + multiset{h}
      && r.manualStateChange == d.manualStateChange
  {
    InsertAddsExactlyOne(d.audioProcessors, h, index);
  }

  /** Without an index, addAudioProcessor appends: the holder goes to the
      end of the chain and its node to the end of the processor list. */
  lemma DefaultIndexAppends(d: Descriptor, owner: Owner, h: Holder)
    ensures var r := AddAudioProcessor(d, owner, h, DefaultIndex);
      && r.audioProcessors == d.audioProcessors + [h]
      && Listed(r.state) == Listed(d.state) + [h.state]
  {
    assert Listed(d.state)[..|Listed(d.state)|] == Listed(d.state);
  }

  /** Removing the holder that addAudioProcessor inserted gives back the
      original chain. */
  lemma AddThenRemoveRestoresChain(d: Descriptor, owner: Owner, h: Holder, index: int)
    ensures var p := InsertPosition(|d.audioProcessors|, index);
      RemoveAudioProcessor(AddAudioProcessor(d, owner, h, index), p).audioProcessors == d.audioProcessors
  {
    InsertThenRemove(d.audioProcessors, h, index);
  }

  /** Node `i` of `states` is the node of holder `i` of `chain`. */
  ghost predicate Paired(states: seq<Node>, chain: seq<Holder>)
  {
    |states| == |chain| && forall i :: 0 <= i < |chain| ==> states[i] == chain[i].state
  }

  /** Inserting a node into the list and its holder into the chain at the
      same position keeps them paired. */
  lemma PairedInsert(states: seq<Node>, chain: seq<Holder>, h: Holder, index: int)
    requires Paired(states, chain)
    ensures var p := InsertPosition(|chain|, index);
      Paired(states[..p] + [h.state] + states[p..], InsertAt(chain, h, index))
  {
    var p := InsertPosition(|chain|, index);
    var s' := states[..p] + [h.state] + states[p..];
    var c' := InsertAt(chain, h, index);
    forall i | 0 <= i < |c'|
      ensures s'[i] == c'[i].state
    {
      if i < p {
        assert c'[i] == c'[..p][i];
      } else if i > p {
        assert c'[i] == c'[p + 1..][i - p - 1];
      }
    }
  }

  /** Erasing the same position from the list and from the chain keeps them
      paired. */
  lemma PairedRemove(states: seq<Node>, rest: seq<Node>, chain: seq<Holder>, index: nat)
    requires Paired(states, chain) && index < |chain|
    requires |rest| == |states| - 1 && rest[..index] == states[..index] && rest[index..] == states[index + 1..]
    ensures Paired(rest, RemoveAt(chain, index))
  {
    forall i | 0 <= i < |rest|
      ensures rest[i] == RemoveAt(chain, index)[i].state
    {
      if i < index {
        assert rest[i] == rest[..index][i];
      } else {
        assert rest[i] == rest[index..][i - index];
      }
    }
  }

  /** addAudioProcessor keeps the tree mirroring the chain: the list node and
      the holder land at the same position. */
  lemma AddKeepsMirror(d: Descriptor, owner: Owner, h: Holder, index: int)
    requires Mirrors(d)
    ensures Mirrors(AddAudioProcessor(d, owner, h, index))
  {
    PairedInsert(Listed(d.state), d.audioProcessors, h, index);
  }

  /** A processor node inserted into the list from outside becomes a holder
      at the same position, and the tree still mirrors the chain. */
  lemma ExternalInsertKeepsMirror(d: Descriptor, owner: Owner, node: Node, index: int)
    requires Mirrors(d) && !d.manualStateChange
    ensures var r := ExternalInsert(d, owner, node, index);
      var p := InsertPosition(|d.audioProcessors|, index);
      && Mirrors(r)
      && r.audioProcessors == InsertAt(d.audioProcessors, FromNode(node, owner), p)
      && r.audioProcessors[p] == FromNode(node, owner)
  {
    var p := InsertPosition(|d.audioProcessors|, index);
    ExternalInsertSplices(d, owner, node, index);
    assert InsertPosition(|d.audioProcessors|, p) == p;
    PairedInsert(Listed(d.state), d.audioProcessors, FromNode(node, owner), p);
  }

  /** What an outside insertion does to the processor list and the chain,
      before anything is said about their pairing. */
  lemma ExternalInsertSplices(d: Descriptor, owner: Owner, node: Node, index: int)
    requires Mirrors(d) && !d.manualStateChange
    ensures var r := ExternalInsert(d, owner, node, index);
      var p := InsertPosition(|d.audioProcessors|, index);
      var h := FromNode(node, owner);
      && FirstOfType(r.state, AudioProcessorsType).Some?
      && Listed(r.state) == Listed(d.state)[..p] + [h.state] + Listed(d.state)[p..]
      && r.audioProcessors == InsertAt(d.audioProcessors, h, p)
  {
    var k := FirstOfType(d.state, AudioProcessorsType).value;
    var list := d.state.children[k];
    var added := AddChild(list, node, index);
    var edited := d.(state := ReplaceChild(d.state, k, added));
    var p := InsertPosition(|list.children|, index);
    assert Listed(edited.state) == added.children;
    SpliceThenUpdate(list.children, added.children, node, FromNode(node, owner).state, p);
  }

  /** Overwriting the element a splice put in is the splice of the new element. */
  lemma SpliceThenUpdate<T>(s: seq<T>, t: seq<T>, x: T, y: T, p: nat)
    requires p <= |s| && |t| == |s| + 1
    requires t[p] == x && t[..p] == s[..p] && t[p + 1..] == s[p..]
    ensures t[p := y] == s[..p] + [y] + s[p..]
  {
    assert t[p := y] == t[..p] + [y] + t[p + 1..];
  }

  /** A processor node removed from the list from outside takes its holder
      with it, and the tree still mirrors the chain. */
  lemma ExternalRemoveKeepsMirror(d: Descriptor, index: int)
    requires Mirrors(d) && !d.manualStateChange
    ensures var r := ExternalRemove(d, index);
      && Mirrors(r)
      && (0 <= index < |d.audioProcessors| ==> r.audioProcessors == RemoveAt(d.audioProcessors, index))
      && (!(0 <= index < |d.audioProcessors|) ==> r == d)
  {
    if 0 <= index < |d.audioProcessors| {
      var k := FirstOfType(d.state, AudioProcessorsType).value;
      var removed := RemoveChild(d.state.children[k], index);
      assert Listed(ExternalRemove(d, index).state) == removed.children;
      PairedRemove(Listed(d.state), removed.children, d.audioProcessors, index);
    }
  }

  /** removeAudioProcessor touches only the chain, so it leaves the tree
      listing one node more than the chain has holders. */
  lemma RemoveBreaksMirror(d: Descriptor, index: int)
    requires Mirrors(d) && 0 <= index < |d.audioProcessors|
    ensures var r := RemoveAudioProcessor(d, index);
      && r.state == d.state
      && |Listed(r.state)| == |r.audioProcessors| + 1
      && !Mirrors(r)
  {
  }

  /** Reloading the tree of a descriptor whose tree mirrors its chain, with an
      engine and a source, gives a chain of the same length whose holders
      keep the names and identities of the original ones, in the same order;
      when the engine resolves every identifier, every holder has a
      processor. */
  lemma ReloadRoundTrip(d: Descriptor, owner: Owner)
    requires Mirrors(d)
    requires HasProperty(d.state, SourceKey) && owner.engine.Some?
    ensures var r := Reconstruct(d.state, owner);
      && Mirrors(r)
      && |r.audioProcessors| == |d.audioProcessors|
      && (forall i :: 0 <= i < |r.audioProcessors| ==>
            && GetProperty(r.audioProcessors[i].state, NameKey, Void) == GetProperty(d.audioProcessors[i].state, NameKey, Void)
            && GetProperty(r.audioProcessors[i].state, IdentifierKey, Void) == GetProperty(d.audioProcessors[i].state, IdentifierKey, Void)
            && r.audioProcessors[i].state.children == d.audioProcessors[i].state.children)
      && ((forall v :: owner.engine.value.createAudioPluginInstance(v, owner.sampleRate, owner.defaultBufferSize).processor.Some?) ==>
            forall i :: 0 <= i < |r.audioProcessors| ==> r.audioProcessors[i].processor.Some?)
  {
    var r := Reconstruct(d.state, owner);
    forall i | 0 <= i < |r.audioProcessors|
      ensures GetProperty(r.audioProcessors[i].state, NameKey, Void) == GetProperty(d.audioProcessors[i].state, NameKey, Void)
      ensures GetProperty(r.audioProcessors[i].state, IdentifierKey, Void) == GetProperty(d.audioProcessors[i].state, IdentifierKey, Void)
      ensures r.audioProcessors[i].state.children == d.audioProcessors[i].state.children
    {
      assert r.audioProcessors[i] == FromNode(d.audioProcessors[i].state, owner);
    }
  }

  /** The bounds check of the corrected child-removed callback never fires
      while the tree mirrors the chain: there it does what the source does. */
  lemma CheckedRemovalMatchesSource(d: Descriptor, parentKind: string, index: int)
    requires Mirrors(d) && 0 <= index < |Listed(d.state)|
    ensures OnChildRemoved(d, parentKind, index) == OnChildRemovedAsWritten(d, parentKind, index)
  {
  }

  /** A reload that replays no processors (no source property, or no engine)
      leaves the tree listing processors while the chain is empty. Removing
      the first listed node from outside then makes JUCE call the child-removed
      callback with index 0, which the source erases from the empty chain; the
      corrected callback leaves the chain as it is. */
  lemma UnreplayedReloadThenRemoval(node: Node, owner: Owner)
    requires !(HasProperty(node, SourceKey) && owner.engine.Some?)
    requires |Listed(node)| > 0
    ensures var d := Reconstruct(node, owner);
      && !d.manualStateChange
      && FirstOfType(d.state, AudioProcessorsType).Some?
      && 0 < |Listed(d.state)|
      && !(0 <= 0 < |d.audioProcessors|)
      && ExternalRemove(d, 0).audioProcessors == []
      && |Listed(ExternalRemove(d, 0).state)| == |Listed(d.state)| - 1
  {
    var d := Reconstruct(node, owner);
    var k := FirstOfType(d.state, AudioProcessorsType).value;
    var removed := RemoveChild(d.state.children[k], 0);
    assert Listed(ExternalRemove(d, 0).state) == removed.children;
  }

  /** A sample count is the integer part of rate times seconds. */
  lemma SamplesTruncate(rate: real, seconds: real)
    ensures Truncates(Samples(rate, seconds), rate * seconds)
  {
    TruncateTruncates(rate * seconds);
  }

  /** setStart, when it changes the value, leaves the cached start at the
      clip's sample rate times the new seconds, truncated. */
  lemma SetStartUpdatesSamples(d: Descriptor, seconds: real)
    requires d.clip.Some?
    requires Changes(d.state, StartKey, Real(seconds)) || SampleCountsCurrent(d)
    ensures Truncates(SetStart(d, seconds).startInSamples, d.clip.value.sampleRate * seconds)
  {
    SamplesTruncate(d.clip.value.sampleRate, seconds);
  }

  /** setLength, when it changes the value, leaves the cached length at the
      clip's sample rate times the new seconds, truncated. */
  lemma SetLengthUpdatesSamples(d: Descriptor, seconds: real)
    requires d.clip.Some?
    requires Changes(d.state, LengthKey, Real(seconds)) || SampleCountsCurrent(d)
    ensures Truncates(SetLength(d, seconds).lengthInSamples, d.clip.value.sampleRate * seconds)
  {
    SamplesTruncate(d.clip.value.sampleRate, seconds);
  }

  /** setOffset, when it changes the value, leaves the cached offset at the
      clip's sample rate times the new seconds, truncated. */
  lemma SetOffsetUpdatesSamples(d: Descriptor, seconds: real)
    requires d.clip.Some?
    requires Changes(d.state, OffsetKey, Real(seconds)) || SampleCountsCurrent(d)
    ensures Truncates(SetOffset(d, seconds).offsetInSamples, d.clip.value.sampleRate * seconds)
  {
    SamplesTruncate(d.clip.value.sampleRate, seconds);
  }

  /** The setters write only a property of the clip's own node, so they keep
      the tree mirroring the chain. */
  lemma OwnPropertyWriteKeepsMirror(d: Descriptor, key: string, v: Value)
    requires Mirrors(d)
    requires d.clip.Some? || !Changes(d.state, key, v)
    ensures Mirrors(WriteOwnProperty(d, key, v))
  {
    var r := WriteOwnProperty(d, key, v);
    KindsDecideFirstOfType(d.state, r.state);
  }
}
