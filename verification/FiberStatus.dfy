/** The seven values of a context's atomic state word. */
module FiberStatus {
  datatype Status = Initial | Running | Yielded | Finished | Panicked | Notified | Suspending
}
