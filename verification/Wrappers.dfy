/** The failure-compatible results shared by the models. A source function that throws returns a
    `Failure` here; one that may find nothing returns an `Option`. */
module Wrappers {

  /** The exceptions of the modelled code, one constructor a message. */
  datatype Error =
    | NotOwner        // "Cannot resize buffer which does not own its storage."
    | DataLoss        // "Can not resize FIFO without data loss."
    | CannotExtend    // "Cannot extend buffer."
    | NotWritable     // "Buffer not writable."
    | EpollFailed     // "ServerSocket error: ..." after a failing epoll_ctl
    | SocketFailed    // "ServerSocket error: ..." after a failing send

  datatype Option<+T> = None | Some(value: T)

  datatype Result<+T> = Success(value: T) | Failure(error: Error)
}
