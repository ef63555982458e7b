/** The operations of `epoll_ctl`, which both servers use. */
module Epoll {
  datatype CtlOp = CtlAdd | CtlMod | CtlDel
}
