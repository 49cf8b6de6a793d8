/** Option, the value of every nullable pointer in the kernel's data. */
module Wrappers {
  datatype Option<+T> = None | Some(value: T)
}

/** A thread's index, and priorities. */
module Threads {
  type Tid = nat

  /** A priority is a byte and 0 is the most urgent. */
  type Priority = p: nat | p <= 0xFF

  const NO_WAITER: Priority := 0xFF
}
