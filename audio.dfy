/** Value types shared by the processor: results with an error path, the
    decoded audio buffer and the effect options object. */
module Audio {

  datatype Result<+T, +E> = Ok(value: T) | Err(error: E)

  datatype Option<+T> = None | Some(value: T)

  /** A decoded Web Audio buffer: a sample rate and one sequence of float
      samples per channel. The platform never builds one with no channel,
      no frame or channels of different lengths. */
  datatype AudioBuffer = AudioBuffer(sampleRate: nat, channels: seq<seq<real>>)
  {
    /** `numberOfChannels` */
    function NumberOfChannels(): nat
    {
      |channels|
    }

    ghost predicate Valid()
    {
      |channels| >= 1 && |channels[0]| >= 1 && sampleRate > 0 &&
      forall c :: 0 <= c < |channels| ==> |channels[c]| == |channels[0]|
    }

    /** `length`: frames per channel. */
    function Length(): (n: nat)
      requires Valid()
      ensures n >= 1 && forall c :: 0 <= c < |channels| ==> |channels[c]| == n
    {
      |channels[0]|
    }
  }

  /** The settings object passed to processAudio/exportAudio and returned by
      the presets. The reverb, room, echo and bass fields are forwarded to
      the effects library and not interpreted by the core. */
  datatype Options = Options(
    panSpeed: real,
    panAmount: real,
    reverbAmount: real,
    roomSize: real,
    echoDelay: real,
    echoFeedback: real,
    panPattern: string,
    bassBoost: real)
}
