/** The parts of the daemon's configuration (installer::config::Config) that the installer reads.
    Everything else it holds (descriptor, backend connection, poll interval, ...) is the opaque
    `rest`, filled in by the steps. */
module Daemon {
  import opened Wrappers
  import opened Paths

  /** `bitcoin::Network`. */
  datatype Network = Bitcoin | Testnet | Signet | Regtest

  /** `Network::to_string`, the name of the per-network sub-directory. */
  function NetworkName(n: Network): (s: string)
    ensures |s| > 0
  {
    match n
    case Bitcoin => "bitcoin"
    case Testnet => "testnet"
    case Signet => "signet"
    case Regtest => "regtest"
  }

  /** Each network has its own directory name. */
  lemma NetworkNameInjective(a: Network, b: Network)
    ensures NetworkName(a) == NetworkName(b) <==> a == b
  {
  }

  datatype Config<B> = Config(dataDir: Option<Path>, network: Network, rest: B)
}
