/**
 The collaborators the clip descriptor calls but does not own: the media clip
 (AVClip), the audio processors (juce::AudioProcessor and its parameters), the
 video engine, and the owning ComposedClip. They appear as plain data; the
 engine's foreign calls are function-valued fields, so every property proved
 about the descriptor holds for every engine.
 */
module Host {
  import opened Wrappers
  import opened ValueTree

  /** A media clip handle: its media file path and its sample rate. */
  datatype Clip = Clip(mediaPath: string, sampleRate: real)

  /** One point of an automation curve. */
  datatype Keyframe = Keyframe(time: real, value: real)

  /** What an AutomationParameter reports about itself: its name, its current
      value and its keyframes in enumeration order. */
  datatype Automation = Automation(name: string, value: real, keyframes: seq<Keyframe>)

  /** A processor parameter, with the AutomationParameter built for it when it
      is automatable. */
  datatype Parameter = Parameter(automatable: bool, automation: Automation)

  /** A live audio processor. `pluginIdentifier` is the plugin description's
      identifier string when the processor is a juce::AudioPluginInstance, and
      None for a processor built into the engine. */
  datatype Processor = Processor(name: string, pluginIdentifier: Option<string>, parameters: seq<Parameter>)

  /** The result of VideoEngine::createAudioPluginInstance: the processor, or
      none, and the error string the engine wrote. */
  datatype Resolution = Resolution(processor: Option<Processor>, error: string)

  /** The video engine's services this core uses. */
  datatype Engine = Engine(
    createClipFromFile: Value -> Option<Clip>,
    createAudioPluginInstance: (Value, real, int) -> Resolution)

  /** The owning ComposedClip: playback settings and the optional engine. */
  datatype Owner = Owner(sampleRate: real, defaultBufferSize: int, engine: Option<Engine>)
}
