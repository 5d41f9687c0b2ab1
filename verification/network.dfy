/** The default RPC port of the Geth node (cmd/ethatomicswap/main.go, walletPort). */
module Network {

  /**
    The default port for a network name. The source distinguishes
    "testnet", "mainnet" and every other name, but answers the same port
    for all three.
   */
  function WalletPort(params: string): (port: string)
    ensures port == "8545"
  {
    match params
    case "testnet" => "8545"
    case "mainnet" => "8545"
    case _ => "8545"
  }
}
