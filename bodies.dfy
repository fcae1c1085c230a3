/**
 * A physics body as far as the sound plugin sees it: the `plugin.sound` configuration
 * that decides what the body plays when it collides.
 */
module Bodies {
  import opened Optional

  /**
   * The `audio` option: the name of a fixed asset, a resolver function (identified by
   * an opaque number, since the model never runs it), or nothing at all.
   */
  datatype AudioSpec = Fixed(name: string) | Resolver(id: nat) | NoAudio

  /**
   * The sound configuration of one body. `currentAudioIndex` is 0 when unset, as the
   * plugin reads it with `|| 0`.
   */
  datatype SoundConfig = SoundConfig(
    audio: AudioSpec,
    alternateAudios: Option<seq<string>>,
    currentAudioIndex: nat,
    selfOnly: bool)

  /** The configuration `{}` that an unconfigured body receives. */
  const EmptyConfig := SoundConfig(NoAudio, None, 0, false)

  class Body {
    /** `body.plugin.sound`; `None` until the plugin has initialised the body. */
    var sound: Option<SoundConfig>

    constructor (sound: Option<SoundConfig>)
      ensures this.sound == sound
    {
      this.sound := sound;
    }
  }
}
