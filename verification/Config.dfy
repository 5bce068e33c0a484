/** Tunnel configurations as values (daemon/internal/config/types.go). A nil pointer is `None`. */
module Config {
  import opened Options

  datatype Protocol = WireGuardProto | AmneziaWGProto | VLESSProto | OtherProto(name: string)

  datatype WireGuard = WireGuard(privateKey: string, publicKey: string, presharedKey: string, endpoint: string,
                                 allowedIPs: seq<string>, persistentKeepalive: int, dns: seq<string>)

  /** The H1-H4 magic headers. */
  datatype Headers = Headers(h1: int, h2: int, h3: int, h4: int)

  datatype AmneziaWG = AmneziaWG(wg: WireGuard, jc: int, jmin: int, jmax: int, s1: int, s2: int, headers: Headers)

  /** VLESS fields that no DPI variant ever changes. */
  datatype VLESSFixed = VLESSFixed(uuid: string, address: string, security: string, flow: string, sni: string,
                                   realityPublicKey: string, realityShortID: string, echConfig: string,
                                   domainFronting: bool, frontingHost: string, clientHelloSplit: bool,
                                   clientHelloBytes: int, fakeHelloTTL: int, shadowTLS: bool,
                                   shadowTLSServer: string, cloak: bool, cloakServer: string, localPort: int)

  datatype VLESS = VLESS(fixed: VLESSFixed, port: int, transport: string, fingerprint: string, ech: bool,
                         transportPath: string)

  datatype Tunnel = Tunnel(id: string, name: string, protocol: Protocol, enabled: bool, interfaceName: string,
                           routingTableID: int, mtu: int,
                           wg: Option<WireGuard>, awg: Option<AmneziaWG>, vless: Option<VLESS>,
                           autoTune: Option<bool>, isVariant: bool, baseConfigID: string)

  /** What the DPI detector says (daemon/internal/dpi/detector.go). */
  datatype BlockType = BlockNone | BlockTCP | BlockHTTP | BlockTLS | BlockProtocol

  function BlockName(b: BlockType): (s: string)
    ensures s != ""
  {
    match b
    case BlockNone => "none"
    case BlockTCP => "tcp_block"
    case BlockHTTP => "http_dpi"
    case BlockTLS => "tls_dpi"
    case BlockProtocol => "protocol_dpi"
  }
}
