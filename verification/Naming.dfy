/**
 Resources, localized resources and the textual form operators type.

 Sockets are parsed by the Rust standard library; here a `Resolver` stands for
 that partial function from a socket to the identifier of the node it names.
 */
module Naming {
  import opened Wrappers

  type NodeId = string

  type Resolver = string -> Option<NodeId>

  datatype Fd =
    | File(path: string)
    | Stream(localSocket: string, peerSocket: string)

  datatype Resource =
    | Descriptor(fd: Fd)
    | Process(pid: int, startTime: nat, exePath: string)
    | Null
  {
    predicate IsStream() {
      Descriptor? && fd.Stream?
    }
  }

  datatype LocalizedResource = LocalizedResource(nodeId: NodeId, resource: Resource)

  /** The other end of a stream, on the node its peer socket names. */
  function PeerStream(resolve: Resolver, r: Resource): Option<LocalizedResource> {
    if r.IsStream() then
      match resolve(r.fd.peerSocket)
      case Some(node) => Some(LocalizedResource(node, Descriptor(Stream(r.fd.peerSocket, r.fd.localSocket))))
      case None => None
    else None
  }

  function IntoLocalized(resolve: Resolver, r: Resource, localization: NodeId): LocalizedResource {
    match PeerStream(resolve, r)
    case Some(peer) => peer
    case None => LocalizedResource(localization, r)
  }
}
