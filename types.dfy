/** Shapes shared by the tempo engine and the configuration store
    (src/assets/types.ts and the point type of the engine). */
module Types {

  datatype Option<+T> = None | Some(value: T)

  /** One control point of the tempo curve: a bar (grid column) and a tempo. */
  datatype TempoPoint = TempoPoint(bar: int, bpm: real)

  /** Whether the tempo is resampled every bar or held for a whole cell. */
  datatype TempoStep = Bar | Cell

  /** The accent of one beat slot in the pattern editor. */
  datatype BeatType = High | Low | Mute
}
