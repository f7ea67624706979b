/** The command records shared between the controller and its clients, as
    they are after deserialisation. */
module SharedModels {
  import opened Hardware

  /** An unsigned 8-bit value. */
  type U8 = x: int | 0 <= x <= 255

  /** One timed mouth movement. `startTimeMs` is an offset from the start
      of the audio; `isOpening` is the direction (true opens, false
      closes); `speed` is the duty to ramp to; `durationMs` is how long to
      hold before stopping. */
  datatype MouthMovement = MouthMovement(startTimeMs: U32, isOpening: bool, speed: U8, durationMs: U32)

  /** A command: base64 audio and its format, which the controller does not
      interpret, and the movements in the order they are to run. */
  datatype BillyBassCommand = BillyBassCommand(audio: string, audioFormat: string, mouthMovements: seq<MouthMovement>)
}
