/** States of the receiver, broadcaster and killer threads. */
module Threads {
  datatype ThreadState = NotRunning | Running | StopRequested
}
