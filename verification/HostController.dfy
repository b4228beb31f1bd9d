// controllers/hetznerrobothost_controller.go: registering a host, completing its addresses,
// and holding back its deletion while a machine refers to it.
module HostController {
  import opened Common
  import opened Api
  import Ipv6
  import Ownership

  // What the Robot API answers; None when no client can be built or the call fails.
  datatype ServerInfo = ServerInfo(ip: string, ipv6Net: string)

  // The network after the completion step. A stored one is never changed.
  function Completed(serverID: int, net: string, info: Option<ServerInfo>): string {
    if net == "" && serverID > 0 && info.Some? && info.value.ipv6Net != "" then
      Ipv6.Normalise(info.value.ipv6Net)
    else net
  }

  class HostObject {
    const read: Host
    var finalizer: bool
    var state: HostState
    var serverIP: string
    var serverIPv6Net: string

    constructor (read: Host, serverIP: string, serverIPv6Net: string)
      ensures this.read == read && Value() == read
      ensures this.serverIP == serverIP && this.serverIPv6Net == serverIPv6Net
    {
      this.read, this.serverIP, this.serverIPv6Net := read, serverIP, serverIPv6Net;
      finalizer, state := read.finalizer, read.state;
    }

    function Value(): Host
      reads this
    {
      read.(finalizer := finalizer, state := state)
    }

    // The object becomes what the ownership protocol says the host controller writes. A host
    // that a machine refers to keeps its finalizer; one without a state becomes claimable in the
    // first reconcile that finds the finalizer. Stored addresses are never changed.
    method Reconcile(info: Option<ServerInfo>)
      modifies this
      ensures Value() == Ownership.HostNext(old(Value()))
      ensures finalizer <==> !old(finalizer) || !read.deleting || read.consumerRef.Some? || read.machineRef.Some?
      ensures state == if old(finalizer) && old(state) == Unset then Available else old(state)
      ensures old(finalizer) && old(serverIP) == "" && read.serverID > 0 && info.Some? ==> serverIP == info.value.ip
      ensures !old(finalizer) || old(serverIP) != "" || read.serverID <= 0 || info.None? ==> serverIP == old(serverIP)
      ensures old(finalizer) ==> serverIPv6Net == Completed(read.serverID, old(serverIPv6Net), info)
      ensures !old(finalizer) || old(serverIPv6Net) != "" || read.serverID <= 0 || info.None? ==>
                serverIPv6Net == old(serverIPv6Net)
    {
      if !finalizer {
        finalizer := true;
        return;
      }
      if state == Unset {
        state := Available;
      }
      if (serverIP == "" || serverIPv6Net == "") && read.serverID > 0 {
        if info.Some? {
          if serverIP == "" && info.value.ip != "" {
            serverIP := info.value.ip;
          }
          if serverIPv6Net == "" && info.value.ipv6Net != "" {
            var ipv6 := TrimSuffix(info.value.ipv6Net, "::");
            serverIPv6Net := ipv6 + "::/64";
          }
        }
      }
      if read.deleting {
        if read.consumerRef.Some? || read.machineRef.Some? {
          return;
        }
        finalizer := false;
      }
    }
  }

  // A network completed from the Robot API gives the same node address everywhere.
  lemma CompletedAddresses(prefix: string, serverID: int, ip: string)
    requires '/' !in prefix && serverID > 0
    ensures var net := Completed(serverID, "", Some(ServerInfo(ip, prefix + "::")));
            && Ipv6.NodeAddress(net) == prefix + "::1"
            && Ipv6.TalosInterfaceAddress(net) == prefix + "::1/64" == Ipv6.FlatcarInterfaceAddress(net)
  {
    Ipv6.DerivationsAgree(prefix, prefix + "::/64");
  }
}
