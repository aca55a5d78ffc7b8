/** The shared value types of the trainer: its screen enumeration, the
    scenario record, and the two wrappers used for JavaScript's `null` and
    for the way an awaited promise settles. */
module Types {

  /** `T | null`. */
  datatype Option<+T> = None | Some(value: T)

  /** How an awaited call settles: it resolves with a value, or it throws. */
  datatype Outcome<+T> = Resolved(value: T) | Rejected(reason: string)

  /** The `AppState` enumeration: which screen the application shows. */
  datatype AppState = Welcome | Training | Feedback

  /** A generated training scenario: an image (as a URL) and the doctor's question. */
  datatype TrainingScenario = TrainingScenario(imageUrl: string, question: string)
}
