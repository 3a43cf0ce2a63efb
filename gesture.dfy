/** What the gesture library hands to the handlers of this model. */
module Gesture {

  /** A gesture context slot: empty until the handler's `onStart` first fills it. */
  datatype Option<T> = None | Some(value: T)

  /** The state a gesture handler reports with each event. */
  datatype HandlerState = Undetermined | Failed | Began | Cancelled | Active | End
}
