/** The two outcomes of a step that may raise, and the reasons it can raise.
    The Python source signals every failure by an exception; here a failure is a value. */
module Outcomes {

  /** Why a step raised. */
  datatype Fault =
    | EmptyTransform    // np.fft.rfft of zero samples
    | EmptyOperand      // np.convolve of an empty operand
    | NonBroadcastable  // an in-place product or assignment whose shapes numpy cannot broadcast
    | EmptyReduction    // np.max over a block that holds no sample
    | TooDeep           // np.convolve given an operand that is not one-dimensional
    | NoVirtualCable    // no input device named like BlackHole or Soundflower
    | NoOutputDevice    // no output device selected
    | UnknownDevice     // a device index that the device list does not have

  datatype Outcome<+T> = Done(value: T) | Raised(fault: Fault)

  /** A Python value that may be `None`. */
  datatype Option<+T> = None | Some(value: T)
}
