# Clip descriptor and video plugin registry

This project models two parts of a video-editing engine.

The first is a clip descriptor: one media clip placed on a composed clip's
timeline. It has the following parts:

- Timing: start, length and offset in seconds, plus a description and the
  video and audio lines. These live as properties of a JUCE `ValueTree` node.
- Cached sample counts: start, length and offset converted to samples at the
  clip's sample rate.
- The audio chain: an ordered list of processor holders. Each holder wraps
  an audio processor together with its automation parameters.
- The mirror: the property tree lists one `AudioProcessor` node per holder,
  in chain order, so that undo, redo, loading and saving go through the tree.
- The `manualStateChange` guard. It keeps the descriptor's own tree writes
  from feeding back into its child-added and child-removed callbacks.

The second is the video plugin registry. It maps identifier strings to
factories, creates instances by identifier, and numbers its identifiers for a
selection menu.

Everything is an immutable value, and every operation is a pure transition.

- The tree callbacks that JUCE delivers synchronously are called explicitly
  where the tree changes.
- The engine's foreign calls (`createClipFromFile`, `createAudioPluginInstance`)
  are function-valued fields of `Host.Engine`. Every property therefore holds
  for every engine.
- Outside edits of the processor list are the two functions
  `ClipDescriptor.ExternalInsert` and `ClipDescriptor.ExternalRemove`. An
  outside edit is an undo, a redo or another editor of the tree. They model no
  lines of the repository; they drive JUCE's edit and its callback so that the
  lemmas can speak about them. `ExternalInsert` makes the tree edit and calls
  the child-added callback as the source writes it. `ExternalRemove` makes the
  tree edit and calls the bounds-checked child-removed callback
  (`ClipDescriptor.OnChildRemoved`, see "## Findings"). While the tree mirrors
  the chain, that callback does exactly what the source's callback
  (`ClipDescriptor.OnChildRemovedAsWritten`) does, as
  `ClipSync.CheckedRemovalMatchesSource` states.

Files:

- `wrappers.dfy`: `Option`.
- `value_tree.dfy`: `juce::var` and `juce::ValueTree` as values.
- `host.dfy`: the clip, the processors, the engine and the owning composed clip.
- `processor_holder.dfy`: `AudioProcessorHolder`.
- `clip_descriptor.dfy`: `ClipDescriptor`.
- `clip_sync.dfy`: how the chain and the tree stay in step.
- `video_plugin_manager.dfy`: `VideoPluginManager`.

## Model

| member | source | states |
|---|---|---|
| ValueTree.TruncateTruncates | Clips/ClipDescriptor.cpp:170-172 | Converting a double to a 64-bit count keeps the integer part, truncated toward zero, for negative values too. |
| ValueTree.SetProperty | Clips/ClipDescriptor.cpp:80-83 | After setProperty the key holds the new value. Every other property, the type and the children are unchanged. |
| ValueTree.InsertPosition | Clips/ClipDescriptor.cpp:194 | addChild puts a child at `index` when 0 <= index <= size, otherwise at the end. |
| ValueTree.AddChild | Clips/ClipDescriptor.cpp:194 | The list grows by one, the new child sits at the insert position, and the children before and after it keep their order. |
| ValueTree.RemoveChild | Clips/ClipDescriptor.cpp:155-157 | Removing at a valid index drops exactly that child and keeps the rest in order. An index outside the list changes nothing. |
| ValueTree.GetOrCreateChild | Clips/ClipDescriptor.cpp:45-46 | Returns the first child of the type. If there is none, it appends one empty child of that type and changes nothing else. |
| ProcessorHolder.Automatable | Clips/ClipDescriptor.cpp:242-244 | The holder keeps an automation parameter for each automatable parameter, and only for those. |
| ProcessorHolder.AutomatableKeepsOrder | Clips/ClipDescriptor.cpp:242-244 | Filtering for automatable parameters distributes over concatenation, so the holder keeps the processor's parameter order. |
| ProcessorHolder.FromProcessor | Clips/ClipDescriptor.cpp:222-263 | A null processor gives an empty `AudioProcessor` node and no parameters. A live processor gives exactly the Name and Identifier properties. The Identifier is the plugin identifier, or "BUILTIN: " plus the name. There is one `Parameter` child per automation parameter. |
| ProcessorHolder.SerialisedParametersRoundTrip | Clips/ClipDescriptor.cpp:247-262 | Reading the `Parameter` children back gives every automation parameter: its name, its value and all its keyframes, in order. |
| ProcessorHolder.FromNode | Clips/ClipDescriptor.cpp:265-301 | Covers restoring a holder from a node. The holder keeps the node and changes only its PluginStatus. With no engine, the status is "Video engine not present" and the processor is null with no parameters. Otherwise the engine is asked for the node's Identifier. The holder takes the engine's processor, the status is the engine's error string, and a null processor gets no parameters. |
| ProcessorHolder.RestoredIdentityRoundTrip | Clips/ClipDescriptor.cpp:222-282 | Restoring from a live processor's node keeps the Name and Identifier it recorded. It asks the engine for exactly that identity. |
| ProcessorHolder.ProcessorStateIsHolderNode | Clips/ClipDescriptor.cpp:315-318 | getProcessorState returns the node the holder was built on: for a restored holder, the given node with only PluginStatus written; for a holder built around a processor, the node recording its name and identity. |
| ProcessorHolder.UpdateAutomation | Clips/ClipDescriptor.cpp:309-313 | updateAutomation visits every automation parameter once, in order, with the given playback position. |
| ClipDescriptor.InsertAt | Clips/ClipDescriptor.cpp:198-201 | The chain's insertion puts the holder at the position addChild would use, and the rest keep their order. |
| ClipDescriptor.InsertThenRemove | Clips/ClipDescriptor.cpp:198-212 | Erasing the element that the insertion added gives back the original chain. |
| ClipDescriptor.Fresh | Clips/ClipDescriptor.cpp:36-49 | A new descriptor for a clip has an empty chain and an unset guard. Its tree has a `source` property exactly when the media path is non-empty. It has video and audio processor lists, the audio list is empty, and the tree mirrors the chain. |
| ClipDescriptor.Reconstruct | Clips/ClipDescriptor.cpp:51-73 | Covers loading a descriptor from a tree. Without a `source` property or without an engine, it keeps the tree as given, has no clip and has an empty chain. Otherwise the clip comes from the engine, and the chain holds one restored holder per listed node, in list order. The tree then mirrors the chain. The guard ends unset. |
| ClipDescriptor.GetDescription | Clips/ClipDescriptor.cpp:75-78 | The description is "unnamed" when the tree has none. |
| ClipDescriptor.GetStart | Clips/ClipDescriptor.cpp:85-88 | The start is 0 when the tree has none. |
| ClipDescriptor.GetLength | Clips/ClipDescriptor.cpp:95-98 | The length is 0 when the tree has none. |
| ClipDescriptor.GetOffset | Clips/ClipDescriptor.cpp:105-108 | The offset is 0 when the tree has none. |
| ClipDescriptor.GetVideoLine | Clips/ClipDescriptor.cpp:115-118 | The video line is 0 when the tree has none. |
| ClipDescriptor.GetAudioLine | Clips/ClipDescriptor.cpp:125-128 | The audio line is 0 when the tree has none. |
| ClipDescriptor.SetDescription | Clips/ClipDescriptor.cpp:80-83 | The getter returns the value just set. No other property, child, holder, clip or guard changes, and current sample counts stay current. |
| ClipDescriptor.SetStart | Clips/ClipDescriptor.cpp:90-93 | getStart returns the value just set, and nothing else in the tree changes. A change recomputes the sample counts from the new value. |
| ClipDescriptor.SetLength | Clips/ClipDescriptor.cpp:100-103 | getLength returns the value just set, and nothing else in the tree changes. A change recomputes the sample counts. |
| ClipDescriptor.SetOffset | Clips/ClipDescriptor.cpp:110-113 | getOffset returns the value just set, and nothing else in the tree changes. A change recomputes the sample counts. |
| ClipDescriptor.SetVideoLine | Clips/ClipDescriptor.cpp:120-123 | getVideoLine returns the line just set, and nothing else in the tree changes. |
| ClipDescriptor.SetAudioLine | Clips/ClipDescriptor.cpp:130-133 | getAudioLine returns the line just set, and nothing else in the tree changes. |
| ClipDescriptor.WriteOwnProperty | Clips/ClipDescriptor.cpp:80-142 | A write to the clip node sets that one property. A write that changes the value triggers the recomputation. One that does not change it leaves the counts as they were. |
| ClipDescriptor.OnPropertyChanged | Clips/ClipDescriptor.cpp:135-142 | A change on the clip's own node brings the sample counts up to date. A change on any other node changes nothing. |
| ClipDescriptor.UpdateSampleCounts | Clips/ClipDescriptor.cpp:166-177 | Each cached count becomes the clip's sample rate times the stored seconds, truncated. The tree, the chain and the guard are unchanged. |
| ClipDescriptor.OnChildAdded | Clips/ClipDescriptor.cpp:144-153 | Nothing happens while the guard is set or for another parent. Otherwise the added node becomes a holder at the node's own index, and the node records the holder's status. |
| ClipDescriptor.AddAudioProcessor | Clips/ClipDescriptor.cpp:184-202 | The holder joins the chain, and its node joins the processor list (created if missing), at the same position. The guard ends as it started, and the clip, the clip node's properties and the counts are unchanged. |
| ClipDescriptor.AddLiveProcessor | Clips/ClipDescriptor.cpp:204-207 | The chain grows by one, and the holder built around the processor sits at the insert position. |
| ClipDescriptor.RemoveAudioProcessor | Clips/ClipDescriptor.cpp:209-213 | Exactly the indexed holder is erased, the rest keep their order, and the tree is not touched. |
| ClipDescriptor.OnChildRemovedAsWritten | Clips/ClipDescriptor.cpp:155-164 | Nothing happens while the guard is set or for another parent. Otherwise the holder at the removed node's index is erased, which needs such a holder to exist. |
| ClipDescriptor.OnChildRemoved | Clips/ClipDescriptor.cpp:155-164 | The same as the source, except that an index with no holder behind it changes nothing. |
| ClipSync.InsertAddsExactlyOne | Clips/ClipDescriptor.cpp:198-201 | The chain after insertion is the old chain plus exactly the new holder, as a multiset. |
| ClipSync.AddBuildsOneHolder | Clips/ClipDescriptor.cpp:184-202 | addAudioProcessor's own tree write builds no second holder. The chain gains exactly the holder passed in, and the guard is restored. |
| ClipSync.DefaultIndexAppends | Clips/ClipDescriptor.cpp:194-201 | With the default index, the holder is appended to the chain and its node to the list. |
| ClipSync.AddThenRemoveRestoresChain | Clips/ClipDescriptor.cpp:184-213 | Removing the holder that addAudioProcessor inserted gives back the original chain. |
| ClipSync.AddKeepsMirror | Clips/ClipDescriptor.cpp:191-201 | addAudioProcessor keeps the tree mirroring the chain. |
| ClipSync.ExternalInsertKeepsMirror | Clips/ClipDescriptor.cpp:144-153 | A node inserted into the list from outside becomes a holder at the same position, and the tree keeps mirroring the chain. |
| ClipSync.ExternalRemoveKeepsMirror | Clips/ClipDescriptor.cpp:155-164 | A node removed from the list from outside takes exactly its holder with it, and the tree keeps mirroring the chain. |
| ClipSync.RemoveBreaksMirror | Clips/ClipDescriptor.cpp:209-213 | Called on its own, removeAudioProcessor leaves the tree listing one node more than the chain has holders. |
| ClipSync.ReloadRoundTrip | Clips/ClipDescriptor.cpp:51-73 | Reloading a mirrored tree with a source and an engine gives a chain of the same length. Each holder keeps the Name, Identifier and parameter nodes of the original at its position, and the tree mirrors the chain. When the engine resolves every identifier, every holder has a processor. |
| ClipSync.CheckedRemovalMatchesSource | Clips/ClipDescriptor.cpp:155-164 | While the tree mirrors the chain, the bounds-checked callback does exactly what the source does. |
| ClipSync.UnreplayedReloadThenRemoval | Clips/ClipDescriptor.cpp:155-164 | A reload without a source or engine lists processors but has an empty chain. An outside removal then calls the callback with index 0, which has no holder. |
| ClipSync.SamplesTruncate | Clips/ClipDescriptor.cpp:170-172 | A sample count is the integer part of rate times seconds. |
| ClipSync.SetStartUpdatesSamples | Clips/ClipDescriptor.cpp:135-173 | When the write changes the stored value, or the counts were already current, the cached start after setStart is the truncated product of the clip's sample rate and the new seconds. JUCE notifies only on a change, so a write of the stored value leaves stale counts stale. |
| ClipSync.SetLengthUpdatesSamples | Clips/ClipDescriptor.cpp:135-173 | When the write changes the stored value, or the counts were already current, the cached length after setLength is the truncated product of the rate and the new seconds. |
| ClipSync.SetOffsetUpdatesSamples | Clips/ClipDescriptor.cpp:135-173 | When the write changes the stored value, or the counts were already current, the cached offset after setOffset is the truncated product of the rate and the new seconds. |
| ClipSync.OwnPropertyWriteKeepsMirror | Clips/ClipDescriptor.cpp:80-133 | The setters write only the clip node's own properties, so they keep the tree mirroring the chain. |
| VideoPluginManager.NewManager | Plugins/foleys_VideoPluginManager.cpp:26-31 | A new registry holds exactly one identifier, "BUILTIN: " plus the colour curve processor's name, whose factory makes that processor. |
| VideoPluginManager.Register | Plugins/foleys_VideoPluginManager.cpp:33-36 | Registering adds `id` to the identifiers and maps it to the new factory, replacing any earlier one. Every other identifier keeps its factory. |
| VideoPluginManager.CreateInstance | Plugins/foleys_VideoPluginManager.cpp:38-50 | The error is cleared exactly when the identifier is registered; the instance is then whatever that factory returns, null included. An unknown identifier gives null and "Plugin not known". |
| VideoPluginManager.RegisterThenCreate | Plugins/foleys_VideoPluginManager.cpp:33-50 | Right after registration, lookup of `id` makes the new factory's product with no error. Lookup of any other identifier is as before. |
| VideoPluginManager.RegisterOverwrites | Plugins/foleys_VideoPluginManager.cpp:33-36 | Registering twice under one identifier is the same as registering only the second factory. |
| VideoPluginManager.DescriptionFromMenuId | Plugins/foleys_VideoPluginManager.cpp:59-65 | A menu number outside 1..n gives the empty string. Any non-empty answer is a registered identifier. |
| VideoPluginManager.PopulatePluginSelection | Plugins/foleys_VideoPluginManager.cpp:52-57 | There is one item per registered identifier, numbered 1..n in iteration order. Each item's number leads back to its text, and every identifier is on exactly one item. |
| VideoPluginManager.MenuIdsInvert | Plugins/foleys_VideoPluginManager.cpp:52-65 | An identifier is registered exactly when some menu number in 1..n leads to it, and that number is unique. |
| VideoPluginManager.NewManagerMenu | Plugins/foleys_VideoPluginManager.cpp:26-65 | A new registry's menu has the built-in identifier as item 1, and looking it up makes the colour curve processor. |

## Left out

- Locking: the callback lock around chain changes is not modelled. Each chain change is one atomic step, and nothing else runs concurrently.
- Undo manager: the undo manager passed to `setProperty` and `addChild` is not modelled. The effect of an undo or redo on the processor list is modelled as an outside edit.
- Processor lifecycle: `prepareToPlay` and `releaseResources` calls on processors are not modelled. They have no effect on the state modelled here.
- Keyframe interpolation: interpolation and the processor update in `AutomationParameter::updateProcessor` are not modelled, because their source is not part of this model. `UpdateAutomation` records only which parameter is called, and at which position.
- Video chain: the video-processor chain is not modelled. Its replay in the loading constructor is commented out, and only the empty `VideoProcessors` list is created.
- Status tree: `getStatusTree` and `getOwningClip` are not modelled. They only return references.
- Value conversion: `juce::var` is reduced to void, text, double and integer values. Reading text as a number yields 0 here, whereas JUCE parses it. Reading a number as text yields the empty string here, whereas JUCE formats it as decimal text, so `GetDescription` of a numeric description is "" where `getDescription` returns its digits.
- Value comparison: when a value is compared with one of another kind, JUCE converts between kinds, and the model does not. In the model, a setter whose value is stored under another kind always counts as a change.
- Floating point: doubles are modelled as exact reals. Rounding in the product of rate and seconds is not modelled.
- UpdateSampleCounts: the 64-bit range of the cached counts is not modelled. A product beyond that range is undefined behaviour in C++, and here it is an unbounded integer.
- Sample counts: `updateSampleCounts` stores the double product in an `int64_t` count, which truncates toward zero. The model truncates and does not round.
- Null clip: a setter that changes a value needs a clip. The source's property-changed callback calls `updateSampleCounts`, which dereferences the clip, and a descriptor loaded without a `source` property or without an engine has a null clip. The setters, `WriteOwnProperty` and `OnPropertyChanged` therefore require a clip whenever the write changes the value. That case is not modelled.
- AddAudioProcessor: the `int` index is modelled as an unbounded integer.
- Owner services: the owner's sample rate and buffer size are modelled as plain values, because the owning clip's code is not part of this model.
- Header values: the tree types and property names of the clip node, the default index of `addAudioProcessor`, and the initial cached counts come from a header that is not part of this model. The model assumes distinct names, an index of -1 (append) and counts of 0.
- Nested lists: a second `AudioProcessors` node deeper in the tree is not modelled. The callbacks check only the parent's type, and the model treats the clip's own list as that parent.
- Plugin menu: `juce::PopupMenu` is not modelled beyond its numbering rule.
- Registry order: the iteration order of the registry's map is an abstract sequence of distinct identifiers, because its comparator is declared in a header that is not part of this model.
- Registry concurrency: registry access from several threads is not modelled.
- Colour curve name: `ColourCurveVideoProcessor::getPluginName` is a parameter of `NewManager`, because its source is not part of this model.
- Factory products: a factory is characterised by what it returns, a processor or null. Two calls are not told apart, and neither is the processor's identity.
- CreateInstance: an empty `std::function` registered as a factory throws when it is called; the model has no such factory, every factory returns a processor or null.
- Menu numbers: `index - 1` for the most negative `int`, and more than 2^31-1 menu items, are not modelled.

## Findings

| source | as written | input that shows it | evidently intended | confidence | as-written member | corrected member |
|---|---|---|---|---|---|---|
| Clips/ClipDescriptor.cpp:155-164 | The child-removed callback erases the holder at the removed node's index without checking that the chain has one there. | Load a tree whose `AudioProcessors` list has a node, but with no `source` property or no engine. The chain stays empty while the tree lists the node. Removing that node from the list then calls the callback with index 0, and `erase` is applied to the end iterator of an empty chain. | A removal whose index has no holder behind it leaves the chain alone. | medium, not executed | ClipDescriptor.OnChildRemovedAsWritten, ClipSync.UnreplayedReloadThenRemoval | ClipDescriptor.OnChildRemoved |
