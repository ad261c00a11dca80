/** The address and port tables shared by the firewall and the detectors
    (vpn-patterns.js and doh-dot-patterns.js). */
module Patterns {
  datatype Proto = Tcp | Udp | OtherProto

  datatype PortSignature = PortSignature(proto: Proto, port: nat, provider: string, weight: nat)

  datatype Range = Range(base: nat, prefix: nat, provider: string, weight: nat)

  datatype Provider = Provider(name: string, ip: nat)

  function Quad(a: nat, b: nat, c: nat, d: nat): nat {
    a * 0x100_0000 + b * 0x1_0000 + c * 0x100 + d
  }

  const VPN_PORT_SIGNATURES: seq<PortSignature> := [
    PortSignature(Udp, 51820, "WireGuard", 90),
    PortSignature(Udp, 1194, "OpenVPN", 90),
    PortSignature(Tcp, 1194, "OpenVPN (TCP)", 85),
    PortSignature(Udp, 500, "IKEv2/IPsec", 75),
    PortSignature(Udp, 4500, "IKEv2/IPsec (NAT-T)", 75),
    PortSignature(Udp, 2408, "Cloudflare WARP", 80),
    PortSignature(Udp, 1701, "L2TP", 70),
    PortSignature(Tcp, 1723, "PPTP", 80),
    PortSignature(Tcp, 992, "SoftEther", 75),
    PortSignature(Tcp, 5555, "SoftEther", 60),
    PortSignature(Udp, 41194, "Outline (Shadowsocks, common default)", 55),
    PortSignature(Udp, 41641, "Tailscale", 85),
    PortSignature(Udp, 9993, "ZeroTier", 85)
  ]

  const VPN_DETECTION_ONLY_PORT_SIGNATURES: seq<PortSignature> := [
    PortSignature(Tcp, 1080, "SOCKS proxy", 30),
    PortSignature(Tcp, 3128, "HTTP/HTTPS proxy (Squid default)", 25),
    PortSignature(Tcp, 8080, "HTTP/HTTPS proxy", 20)
  ]

  const VPN_IP_RANGES: seq<Range> := [
    Range(Quad(162, 159, 192, 0), 24, "Cloudflare WARP", 85),
    Range(Quad(162, 159, 193, 0), 24, "Cloudflare WARP", 85),
    Range(Quad(100, 64, 0, 0), 10, "Tailscale", 70)
  ]

  const DOT_PORTS: seq<nat> := [853]

  const DOH_PROVIDER_IPS: seq<Provider> := [
    Provider("Cloudflare", Quad(1, 1, 1, 1)),
    Provider("Cloudflare", Quad(1, 0, 0, 1)),
    Provider("Google", Quad(8, 8, 8, 8)),
    Provider("Google", Quad(8, 8, 4, 4)),
    Provider("Quad9", Quad(9, 9, 9, 9)),
    Provider("Quad9", Quad(149, 112, 112, 112)),
    Provider("OpenDNS", Quad(208, 67, 222, 222)),
    Provider("OpenDNS", Quad(208, 67, 220, 220)),
    Provider("NextDNS", Quad(45, 90, 28, 0)),
    Provider("NextDNS", Quad(45, 90, 30, 0)),
    Provider("AdGuard", Quad(94, 140, 14, 14)),
    Provider("AdGuard", Quad(94, 140, 15, 15)),
    Provider("CleanBrowsing", Quad(185, 228, 168, 9)),
    Provider("CleanBrowsing", Quad(185, 228, 169, 9))
  ]

  /** The operator's reputation list in the shape of the built-in one. */
  function ReputationProviders(ips: seq<nat>): (ps: seq<Provider>)
    ensures |ps| == |ips|
  {
    seq(|ips|, i requires 0 <= i < |ips| => Provider("operator-reputation-list", ips[i]))
  }

  function DohProviders(reputation: seq<nat>): seq<Provider> {
    DOH_PROVIDER_IPS + ReputationProviders(reputation)
  }
}
