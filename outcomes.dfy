/** Shared result shapes of the connection layer and the cache. */
module Outcomes {

  datatype Option<T> = None | Some(value: T)

  /** Every failure the connection layer reports; each variant stands for one
      of the runtime errors thrown in rdma.cpp (the message is in the comment). */
  datatype Error =
    | ChannelCreation   // "Failed to create RDMA event channel"
    | IdCreation        // "Failed to create RDMA server listening ID"
    | Bind              // "Failed to bind RDMA server to address"
    | Listen            // "Failed to start RDMA listening"
    | GetEvent          // "Failed to get RDMA CM event"
    | AckEvent          // "Failed to acknowledge RDMA CM event"
    | PdAlloc           // "Failed to allocate IBV PD"
    | CqCreate          // "Failed to create IBV CQ"
    | QpCreate          // "Failed to create RDMA QP"
    | AcceptRequest     // "Failed to accept RDMA connection"
    | AddrInfo          // "Failed to get server address information"
    | ResolveAddr       // "Failed to resolve remote address"
    | ResolveRoute      // "Failed to resolve route to remote"
    | ConnectRemote     // "Failed to connect to RDMA remote"

  /** How an operation that may block ends: it returns a value, it throws,
      or it never returns because the event it waits for is never delivered. */
  datatype Outcome<T> = Done(value: T) | Failed(err: Error) | Stuck
}
