/** Keys, peers and addresses, shared by the finder and the provider stores. */
module Peers {

  /** A content key. */
  type Key = seq<bv8>

  type PeerID = string

  /** An address; two addresses can print alike without being the same object. */
  datatype Multiaddr = Multiaddr(text: string, handle: nat)

  datatype AddrInfo = AddrInfo(id: PeerID, addrs: seq<Multiaddr>)
}
