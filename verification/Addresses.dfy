// The addresses a machine reports to the cluster (controllers/hetznerrobotmachine_controller.go),
// derived on their own, next to the ones its kubelet registers with.
module Addresses {
  import opened Common
  import Inject
  import Ipv6
  import Text

  datatype Address = ExternalIP(text: string) | InternalIP(text: string)

  function Texts(addresses: seq<Address>): (r: seq<string>)
    ensures |r| == |addresses| && forall i | 0 <= i < |r| :: r[i] == addresses[i].text
  {
    seq(|addresses|, i requires 0 <= i < |addresses| => addresses[i].text)
  }

  // Apart from the server's own IPv4 address, which comes first, a machine reports exactly the
  // addresses its kubelet registers, in the same order; the IPv6 one is the address its network
  // interface gets.
  method StatusAddresses(serverIP: string, internalIP: string, vlan: bool, ipv6Net: string)
    returns (addresses: seq<Address>)
    ensures |addresses| >= 1 && addresses[0] == ExternalIP(serverIP)
    ensures var ip := Inject.NodeIP(if vlan then internalIP else "", ipv6Net);
            Text.Join(Texts(addresses[1..]), ",") == ip && (|addresses| == 1 <==> ip == "")
    ensures (exists a :: a in addresses && a.InternalIP?) <==> vlan && internalIP != ""
    ensures ipv6Net != "" ==>
              && addresses[|addresses| - 1].ExternalIP?
              && addresses[|addresses| - 1].text + "/64" == Ipv6.FlatcarInterfaceAddress(ipv6Net)
  {
    addresses := [ExternalIP(serverIP)];
    if internalIP != "" && vlan {
      addresses := addresses + [InternalIP(internalIP)];
      assert InternalIP(internalIP) in addresses;
    }
    ghost var first := addresses[1..];
    if ipv6Net != "" {
      var ipv6Prefix := Ipv6.BeforeSlash(ipv6Net);
      var ipv6Addr := TrimSuffix(ipv6Prefix, "::") + "::1";
      ghost var before := addresses;
      addresses := addresses + [ExternalIP(ipv6Addr)];
      assert addresses[1..] == first + [ExternalIP(ipv6Addr)];
      assert forall a :: a in addresses <==> a in before || a == ExternalIP(ipv6Addr);
      assert ipv6Addr + "/64" == TrimSuffix(ipv6Prefix, "::") + "::1/64";
    }
    JoinTexts(addresses[1..]);
  }

  lemma JoinTexts(list: seq<Address>)
    ensures list == [] ==> Text.Join(Texts(list), ",") == ""
    ensures |list| == 1 ==> Text.Join(Texts(list), ",") == list[0].text
    ensures |list| == 2 ==> Text.Join(Texts(list), ",") == list[0].text + "," + list[1].text
  {
    if |list| == 2 {
      assert Texts(list)[1..] == [list[1].text];
    }
  }
}
