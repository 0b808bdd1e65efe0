/**
 * The chain registry: a constant table of the supported networks, in
 * declaration order, and the lookups over it. A numeric argument is matched
 * against each entry's mainnet and testnet chain id, first match winning; a
 * string argument is lower-cased and used as the entry's key. The object
 * returned is the table entry together with its key.
 *
 * The JavaScript object `CHAINS` is held in two parts that share positions:
 * `Registry`, the key and the ids of each entry, in the order in which
 * `Object.entries` and `Object.keys` visit them, and `Details(i)`, the rest
 * of entry `i`, which no lookup inspects.
 */
module Chains {
  import opened Wrappers

  datatype Currency = Currency(name: string, symbol: string, decimals: nat)

  datatype FlashloanProvider = FlashloanProvider(name: string, address: string, fee: real)

  /** One DEX of a chain, under its key in the chain's `dexes` object. */
  datatype Dex = Dex(id: string, name: string, router: string,
                     quoter: Option<string>, factory: Option<string>, fee: real)

  /** `wrappedNative`, the other named token addresses in order, and the watchlist. */
  datatype TokenList = TokenList(wrappedNative: string, named: seq<(string, string)>, watchlist: seq<string>)

  /** The key of an entry and the ids the numeric lookup matches; the testnet id is optional. */
  datatype Registration = Registration(key: string, chainId: nat, testnetChainId: Option<nat>)

  /** The remaining fields of an entry; the optional ones are declared by some chains only. */
  datatype ChainDetails = ChainDetails(
    name: string,
    nativeCurrency: Currency,
    blockExplorer: string,
    flashloanProvider: FlashloanProvider,
    aavePool: Option<string>,
    balancerVault: Option<string>,
    skyFlashMinter: Option<string>,
    zeroXExchangeProxy: Option<string>,
    dexes: seq<Dex>,
    tokens: TokenList)

  /** What a lookup returns: every field of the entry, and its key. */
  datatype ChainConfig = ChainConfig(registration: Registration, details: ChainDetails)

  /** The argument of `getChainConfig`: a number or a string. */
  datatype ChainRef = ById(id: int) | ByName(name: string)

  datatype ChainError =
    | UnsupportedChainId(id: int)
    | UnsupportedChain(name: string, supported: seq<string>)

  const Ether := Currency("Ether", "ETH", 18)
  const ZeroAddress := "0x0000000000000000000000000000000000000000"
  const BalancerVaultAddress := "0xBA12222222228d8Ba445958a75a0704d566BF2C8"

  /** A chain with one DEX and a single router, as every entry after the first two is declared. */
  function SingleDexChain(name: string, currency: Currency, explorer: string,
                          balancerVault: Option<string>, provider: FlashloanProvider,
                          dex: Dex, wrappedNative: string, watchlist: seq<string>): ChainDetails
  {
    ChainDetails(name, currency, explorer, provider, None, balancerVault, None, None,
                [dex], TokenList(wrappedNative, [], watchlist))
  }

  function RouterOnly(id: string, name: string, router: string, fee: real): Dex {
    Dex(id, name, router, None, None, fee)
  }

  /** The keys and ids of the table, in declaration order. */
  const Registry: seq<Registration> := [
    Registration("ethereum", 1, Some(5)),
    Registration("bnb", 56, Some(97)),
    Registration("optimism", 10, None),
    Registration("polygon", 137, None),
    Registration("fantom", 250, None),
    Registration("base", 8453, None),
    Registration("arbitrum", 42161, None),
    Registration("avalanche", 43114, None),
    Registration("linea", 59144, None),
    Registration("blast", 81457, None),
    Registration("scroll", 534352, None),
    Registration("mantle", 5000, None),
    Registration("monad", 143, None),
    Registration("berachain", 80094, None),
    Registration("sonic", 146, None),
    Registration("worldchain", 480, None),
    Registration("abstract", 2741, None),
    Registration("mode", 34443, None),
    Registration("celo", 42220, None),
    Registration("unichain", 130, None),
    Registration("ink", 57073, None),
    Registration("plasma", 9745, None)
  ]

  /** The rest of the entry at position `i` of the table. */
  function Details(i: nat): ChainDetails
    requires i < |Registry|
  {
    match i
    case 0 => // ethereum
      ChainDetails(
        "Ethereum", Ether, "https://etherscan.io",
        FlashloanProvider("Balancer V2", BalancerVaultAddress, 0.0),
        Some("0x87870B27F51f6b03397141047603a6020BCff228"),
        Some(BalancerVaultAddress),
        Some("0x60C96F604a4441738F98931109A545385960cc72"),
        Some("0xDef1C0ded9bec7F1a1670819833240f027b25EfF"),
        [ Dex("uniswapV2", "Uniswap V2", "0x7a250d5630B4cF539739dF2C5dAcb4c659F2488D",
              None, Some("0x5C69bEe701ef814a2B6a3EDD4B1652CB9cc5aA6f"), 0.003),
          Dex("uniswapV3", "Uniswap V3", "0xE592427A0AEce92De3Edee1F18E0157C05861564",
              Some("0xb27308f9F90D607463bb33eA1BeBb41C27CE5AB6"),
              Some("0x1F98431c8aD98523631AE4a59f267346ea31F984"), 0.003),
          Dex("sushiswap", "SushiSwap", "0xd9e1cE17f2641f24aE83637ab66a2cca9C378B9F",
              None, Some("0xC0AEe478e3658e2610c5F7A4A2E1777cE9e4f2Ac"), 0.003) ],
        TokenList(
          "0xC02aaA39b223FE8D0A0e5C4F27eAD9083C756Cc2",
          [ ("usdc", "0xA0b86991c6218b36c1d19D4a2e9Eb0cE3606eB48"),
            ("usdt", "0xdAC17F958D2ee523a2206206994597C13D831ec7"),
            ("dai", "0x6B175474E89094C44Da98b954EedeAC495271d0F"),
            ("wbtc", "0x2260FAC5E5542a773Aa44fBCfeDf7C193bc2C599"),
            ("link", "0x514910771AF9Ca656af840dff83E8264EcF986CA") ],
          [ "0xC02aaA39b223FE8D0A0e5C4F27eAD9083C756Cc2",
            "0xA0b86991c6218b36c1d19D4a2e9Eb0cE3606eB48",
            "0x6B175474E89094C44Da98b954EedeAC495271d0F",
            "0x2260FAC5E5542a773Aa44fBCfeDf7C193bc2C599",
            "0x514910771AF9Ca656af840dff83E8264EcF986CA" ]))
    case 1 => // bnb
      ChainDetails(
        "BNB Chain", Currency("BNB", "BNB", 18), "https://bscscan.com",
        FlashloanProvider("PancakeSwap", "0x13f4EA83D0bd40E75C8222255bc855a974568Dd4", 0.0),
        None, None, None, None,
        [RouterOnly("pancakeSwapV3", "PancakeSwap V3", "0x13f4EA83D0bd40E75C8222255bc855a974568Dd4", 0.0025)],
        TokenList("0xbb4CdB9CBd36B01bD1cBaEBF2De08d9173bc095c", [], ["0xbb4CdB9CBd36B01bD1cBaEBF2De08d9173bc095c"]))
    case 2 => // optimism
      SingleDexChain(
        "Optimism", Ether, "https://optimistic.etherscan.io", Some(BalancerVaultAddress),
        FlashloanProvider("Balancer", BalancerVaultAddress, 0.0),
        RouterOnly("uniswapV3", "Uniswap V3", "0xE592427A0AEce92De3Edee1F18E0157C05861564", 0.003),
        "0x4200000000000000000000000000000000000006", ["0x4200000000000000000000000000000000000006"])
    case 3 => // polygon
      SingleDexChain(
        "Polygon", Currency("MATIC", "MATIC", 18), "https://polygonscan.com", Some(BalancerVaultAddress),
        FlashloanProvider("Balancer", BalancerVaultAddress, 0.0),
        RouterOnly("quickswap", "QuickSwap", "0xa5E0829CaCEd8fFDD03942104b10503958965bb5", 0.003),
        "0x0d500B1d8E8eF31E21C99d1Db9A6444d3ADf1270", ["0x0d500B1d8E8eF31E21C99d1Db9A6444d3ADf1270"])
    case 4 => // fantom
      SingleDexChain(
        "Fantom", Currency("Fantom", "FTM", 18), "https://ftmscan.com", None,
        FlashloanProvider("Equalizer", "0x3d6c57b685cC83f4bf23768aC42847a1bcB59D50", 0.0),
        RouterOnly("spookySwap", "SpookySwap", "0xF491e7B69E4244ad4002BC14e878a34207E38c29", 0.002),
        "0x21be370D5312f44cB42ce377BC9b8a0cEF1A4C83", ["0x21be370D5312f44cB42ce377BC9b8a0cEF1A4C83"])
    case 5 => // base
      SingleDexChain(
        "Base", Ether, "https://basescan.org", Some(BalancerVaultAddress),
        FlashloanProvider("Balancer", BalancerVaultAddress, 0.0),
        RouterOnly("baseSwap", "BaseSwap", "0x327Df1E6de05895d2d81ED4d17963C489f4630fF", 0.0025),
        "0x4200000000000000000000000000000000000006", ["0x4200000000000000000000000000000000000006"])
    case 6 => // arbitrum
      SingleDexChain(
        "Arbitrum", Ether, "https://arbiscan.io", Some(BalancerVaultAddress),
        FlashloanProvider("Balancer", BalancerVaultAddress, 0.0),
        RouterOnly("camelot", "Camelot", "0xc873fEcbd354f5A56E00E710B90EF42d211dd46d", 0.003),
        "0x82aF49447D8a07e3bd95BD0d56f35241523fBab1", ["0x82aF49447D8a07e3bd95BD0d56f35241523fBab1"])
    case 7 => // avalanche
      SingleDexChain(
        "Avalanche", Currency("AVAX", "AVAX", 18), "https://snowtrace.io", Some(BalancerVaultAddress),
        FlashloanProvider("Balancer", BalancerVaultAddress, 0.0),
        RouterOnly("traderJoe", "Trader Joe", "0x60aE616a2a41d3E87997914a34cd565600895000", 0.003),
        "0xB31f66AA3C1e785363F0875A1B74E27b85FD66c7", ["0xB31f66AA3C1e785363F0875A1B74E27b85FD66c7"])
    case 8 => // linea
      SingleDexChain(
        "Linea", Ether, "https://lineascan.build", None,
        FlashloanProvider("Lynex", "0x327Df1E6de05895d2d81ED4d17963C489f4630fF", 0.0),
        RouterOnly("lynex", "Lynex", "0x327Df1E6de05895d2d81ED4d17963C489f4630fF", 0.0025),
        "0xe5D7C2a44FfDDf6b295A15c148167daaAf5Cf34f", ["0xe5D7C2a44FfDDf6b295A15c148167daaAf5Cf34f"])
    case 9 => // blast
      SingleDexChain(
        "Blast", Ether, "https://blastscan.io", None,
        FlashloanProvider("Thruster", "0x13f4EA83D0bd40E75C8222255bc855a974568Dd4", 0.0),
        RouterOnly("thruster", "Thruster", "0x13f4EA83D0bd40E75C8222255bc855a974568Dd4", 0.003),
        "0x4300000000000000000000000000000000000004", ["0x4300000000000000000000000000000000000004"])
    case 10 => // scroll
      SingleDexChain(
        "Scroll", Ether, "https://scrollscan.com", None,
        FlashloanProvider("Ambient", "0x327Df1E6de05895d2d81ED4d17963C489f4630fF", 0.0),
        RouterOnly("ambient", "Ambient", "0x327Df1E6de05895d2d81ED4d17963C489f4630fF", 0.0025),
        "0x5300000000000000000000000000000000000004", ["0x5300000000000000000000000000000000000004"])
    case 11 => // mantle
      SingleDexChain(
        "Mantle", Currency("Mantle", "MNT", 18), "https://explorer.mantle.xyz", None,
        FlashloanProvider("Agni", "0x13f4EA83D0bd40E75C8222255bc855a974568Dd4", 0.0),
        RouterOnly("agni", "Agni", "0x13f4EA83D0bd40E75C8222255bc855a974568Dd4", 0.0025),
        "0xdeaddeaddeaddeaddeaddeaddeaddeaddead0000", ["0xdeaddeaddeaddeaddeaddeaddeaddeaddead0000"])
    case 12 => // monad
      SingleDexChain(
        "Monad", Currency("Monad", "MON", 18), "https://monadscan.xyz", None,
        FlashloanProvider("MonadFlash", ZeroAddress, 0.0),
        RouterOnly("monadSwap", "MonadSwap", ZeroAddress, 0.0025),
        ZeroAddress, [])
    case 13 => // berachain
      SingleDexChain(
        "Berachain", Currency("BERA", "BERA", 18), "https://berascan.com", None,
        FlashloanProvider("Dolomite", ZeroAddress, 0.0),
        RouterOnly("bex", "BEX", ZeroAddress, 0.0025),
        ZeroAddress, [])
    case 14 => // sonic
      SingleDexChain(
        "Sonic", Currency("Sonic", "S", 18), "https://sonicscan.org", None,
        FlashloanProvider("SonicFlash", ZeroAddress, 0.0),
        RouterOnly("sonicSwap", "SonicSwap", ZeroAddress, 0.0025),
        ZeroAddress, [])
    case 15 => // worldchain
      SingleDexChain(
        "World Chain", Ether, "https://worldscan.org", None,
        FlashloanProvider("Balancer", BalancerVaultAddress, 0.0),
        RouterOnly("worldSwap", "WorldSwap", ZeroAddress, 0.0025),
        "0x4200000000000000000000000000000000000006", [])
    case 16 => // abstract
      SingleDexChain(
        "Abstract", Ether, "https://explorer.abs.xyz", None,
        FlashloanProvider("AbsFlash", ZeroAddress, 0.0),
        RouterOnly("absSwap", "AbsSwap", ZeroAddress, 0.0025),
        ZeroAddress, [])
    case 17 => // mode
      SingleDexChain(
        "Mode", Ether, "https://modescan.io", None,
        FlashloanProvider("Balancer", BalancerVaultAddress, 0.0),
        RouterOnly("modeSwap", "ModeSwap", ZeroAddress, 0.0025),
        "0x4200000000000000000000000000000000000006", [])
    case 18 => // celo
      SingleDexChain(
        "Celo", Currency("Celo", "CELO", 18), "https://celoscan.io", None,
        FlashloanProvider("Moola", ZeroAddress, 0.0),
        RouterOnly("ubeswap", "Ubeswap", ZeroAddress, 0.0025),
        "0x471EcE3750Da237f93B8E2997353394935240238", [])
    case 19 => // unichain
      SingleDexChain(
        "Unichain", Ether, "https://unichain.org", None,
        FlashloanProvider("UniFlash", ZeroAddress, 0.0),
        RouterOnly("uniswapV4", "Uniswap V4", ZeroAddress, 0.0005),
        ZeroAddress, [])
    case 20 => // ink
      SingleDexChain(
        "Ink", Ether, "https://inkscan.xyz", None,
        FlashloanProvider("InkFlash", ZeroAddress, 0.0),
        RouterOnly("inkSwap", "InkSwap", ZeroAddress, 0.0025),
        "0x4200000000000000000000000000000000000006", [])
    case _ => // plasma
      SingleDexChain(
        "Plasma", Ether, "https://plasmascan.org", None,
        FlashloanProvider("PlasmaFlash", ZeroAddress, 0.0),
        RouterOnly("plasmaSwap", "PlasmaSwap", ZeroAddress, 0.0025),
        ZeroAddress, [])
  }


  /** The entry at position `i` as a lookup returns it. */
  function Entry(i: nat): ChainConfig
    requires i < |Registry|
  {
    ChainConfig(Registry[i], Details(i))
  }

  /** The strict equality test of the numeric lookup: the mainnet id, or a testnet id that is present. */
  predicate MatchesId(r: Registration, id: int) {
    r.chainId == id || r.testnetChainId == Some(id)
  }

  /** The loop over `Object.entries(CHAINS)` from position `i`: the first entry whose id matches. */
  function FindIdFrom(table: seq<Registration>, id: int, i: nat): (r: Option<nat>)
    requires i <= |table|
    ensures r.Some? ==> i <= r.value < |table| && MatchesId(table[r.value], id)
                        && forall j :: i <= j < r.value ==> !MatchesId(table[j], id)
    ensures r.None? ==> forall j :: i <= j < |table| ==> !MatchesId(table[j], id)
    decreases |table| - i
  {
    if i == |table| then None
    else if MatchesId(table[i], id) then Some(i)
    else FindIdFrom(table, id, i + 1)
  }

  /** The property access `CHAINS[key]`, as a search from position `i`: the entry whose key equals `key`. */
  function FindKeyFrom(table: seq<Registration>, key: string, i: nat): (r: Option<nat>)
    requires i <= |table|
    ensures r.Some? ==> i <= r.value < |table| && table[r.value].key == key
                        && forall j :: i <= j < r.value ==> table[j].key != key
    ensures r.None? ==> forall j :: i <= j < |table| ==> table[j].key != key
    decreases |table| - i
  {
    if i == |table| then None
    else if table[i].key == key then Some(i)
    else FindKeyFrom(table, key, i + 1)
  }

  function LowerChar(c: char): char {
    if 'A' <= c <= 'Z' then (c as int - 'A' as int + 'a' as int) as char else c
  }

  /** `toLowerCase` on the ASCII letters: same length, and no upper-case letter left. */
  function ToLower(s: string): (r: string)
    ensures |r| == |s|
    ensures forall k :: 0 <= k < |s| ==> r[k] == LowerChar(s[k])
    ensures forall k :: 0 <= k < |s| ==> !('A' <= r[k] <= 'Z')
  {
    seq(|s|, k requires 0 <= k < |s| => LowerChar(s[k]))
  }

  predicate IsLowerCase(s: string) {
    forall k :: 0 <= k < |s| ==> 'a' <= s[k] <= 'z'
  }

  /** `getSupportedChains`: the keys of the table, in declaration order. */
  function GetSupportedChains(): (keys: seq<string>)
    ensures |keys| == |Registry| == 22
    ensures forall i :: 0 <= i < |Registry| ==> keys[i] == Registry[i].key
  {
    seq(|Registry|, i requires 0 <= i < |Registry| => Registry[i].key)
  }

  /** `getChainConfig`: the first entry with a matching id, or the entry under the lower-cased name. */
  function GetChainConfig(ref: ChainRef): (r: Result<ChainConfig, ChainError>)
    ensures r.Success? ==> exists i :: 0 <= i < |Registry| && r.value == Entry(i)
    ensures r.Failure? ==> r.error == match ref
                                      case ById(id) => UnsupportedChainId(id)
                                      case ByName(name) => UnsupportedChain(name, GetSupportedChains())
  {
    match ref
    case ById(id) =>
      (match FindIdFrom(Registry, id, 0)
       case Some(i) => Success(Entry(i))
       case None => Failure(UnsupportedChainId(id)))
    case ByName(name) =>
      var key := ToLower(name);
      (match FindKeyFrom(Registry, key, 0)
       case Some(i) => Success(Entry(i))
       case None => Failure(UnsupportedChain(name, GetSupportedChains())))
  }

  /** `isChainSupported`: true exactly when the lookup returns an entry of the table instead of failing. */
  predicate IsChainSupported(ref: ChainRef): (s: bool)
    ensures s <==> exists i :: 0 <= i < |Registry| && GetChainConfig(ref) == Success(Entry(i))
  {
    GetChainConfig(ref).Success?
  }

  /**
   * An independent index of the table by id: the position of the entry
   * declaring `id` as its mainnet or testnet id, or -1.
   */
  function IndexOfId(id: int): int {
    match id
    case 1 => 0 case 5 => 0 case 56 => 1 case 97 => 1 case 10 => 2 case 137 => 3 case 250 => 4
    case 8453 => 5 case 42161 => 6 case 43114 => 7 case 59144 => 8 case 81457 => 9 case 534352 => 10
    case 5000 => 11 case 143 => 12 case 80094 => 13 case 146 => 14 case 480 => 15 case 2741 => 16
    case 34443 => 17 case 42220 => 18 case 130 => 19 case 57073 => 20 case 9745 => 21
    case _ => -1
  }

  /** An independent index of the table by key, or -1. */
  function IndexOfKey(key: string): int {
    match key
    case "ethereum" => 0 case "bnb" => 1 case "optimism" => 2 case "polygon" => 3 case "fantom" => 4
    case "base" => 5 case "arbitrum" => 6 case "avalanche" => 7 case "linea" => 8 case "blast" => 9
    case "scroll" => 10 case "mantle" => 11 case "monad" => 12 case "berachain" => 13 case "sonic" => 14
    case "worldchain" => 15 case "abstract" => 16 case "mode" => 17 case "celo" => 18
    case "unichain" => 19 case "ink" => 20 case "plasma" => 21
    case _ => -1
  }

  /** Every id the table declares is indexed at its own entry: no two entries share an id. */
  lemma IdsAreIndexed()
    ensures forall i :: 0 <= i < |Registry| ==> IndexOfId(Registry[i].chainId) == i
    ensures forall i :: 0 <= i < |Registry| && Registry[i].testnetChainId.Some? ==>
              IndexOfId(Registry[i].testnetChainId.value) == i
  {
    MainnetIdsAreIndexed();
  }

  /*
   * The facts about the whole table are each proved in three ranges of
   * entries (Early, Middle, Late): every range is a separate, smaller proof
   * obligation, where one obligation over all 22 entries would cost the
   * solver several times as much.
   */
  lemma MainnetIdsAreIndexed()
    ensures forall i :: 0 <= i < |Registry| ==> IndexOfId(Registry[i].chainId) == i
  {
    EarlyMainnetIdsAreIndexed();
    MiddleMainnetIdsAreIndexed();
    LateMainnetIdsAreIndexed();
  }

  lemma EarlyMainnetIdsAreIndexed()
    ensures forall i :: 0 <= i < 8 ==> IndexOfId(Registry[i].chainId) == i
  {
  }

  lemma MiddleMainnetIdsAreIndexed()
    ensures forall i :: 8 <= i < 15 ==> IndexOfId(Registry[i].chainId) == i
  {
  }

  lemma LateMainnetIdsAreIndexed()
    ensures forall i :: 15 <= i < |Registry| ==> IndexOfId(Registry[i].chainId) == i
  {
  }

  /** Every key is indexed at its own entry: no two entries share a key. */
  lemma KeysAreIndexed()
    ensures forall i :: 0 <= i < |Registry| ==> IndexOfKey(Registry[i].key) == i
  {
    EarlyKeysAreIndexed();
    MiddleKeysAreIndexed();
    LateKeysAreIndexed();
  }

  lemma EarlyKeysAreIndexed()
    ensures forall i :: 0 <= i < 8 ==> IndexOfKey(Registry[i].key) == i
  {
  }

  lemma MiddleKeysAreIndexed()
    ensures forall i :: 8 <= i < 15 ==> IndexOfKey(Registry[i].key) == i
  {
  }

  lemma LateKeysAreIndexed()
    ensures forall i :: 15 <= i < |Registry| ==> IndexOfKey(Registry[i].key) == i
  {
  }

  /** Every key is spelled in lower case. */
  lemma KeysAreLowerCase()
    ensures forall i :: 0 <= i < |Registry| ==> IsLowerCase(Registry[i].key)
  {
    EarlyKeysAreLowerCase();
    MiddleKeysAreLowerCase();
    LateKeysAreLowerCase();
  }

  lemma EarlyKeysAreLowerCase()
    ensures forall i :: 0 <= i < 8 ==> IsLowerCase(Registry[i].key)
  {
  }

  lemma MiddleKeysAreLowerCase()
    ensures forall i :: 8 <= i < 15 ==> IsLowerCase(Registry[i].key)
  {
  }

  lemma LateKeysAreLowerCase()
    ensures forall i :: 15 <= i < |Registry| ==> IsLowerCase(Registry[i].key)
  {
  }

  lemma LowerCaseIsFixed(s: string)
    requires IsLowerCase(s)
    ensures ToLower(s) == s
  {
  }

  /** Every index the reference gives points at an entry that declares that id. */
  lemma IndexedIdsMatch(id: int)
    requires IndexOfId(id) != -1
    ensures 0 <= IndexOfId(id) < |Registry| && MatchesId(Registry[IndexOfId(id)], id)
  {
  }

  lemma IndexedKeysMatch(key: string)
    requires IndexOfKey(key) != -1
    ensures 0 <= IndexOfKey(key) < |Registry| && Registry[IndexOfKey(key)].key == key
  {
  }

  /** The search by id finds the entry the reference index names, and only that one. */
  lemma SearchById(id: int)
    ensures FindIdFrom(Registry, id, 0) == if IndexOfId(id) == -1 then None else Some(IndexOfId(id))
  {
    var r := FindIdFrom(Registry, id, 0);
    if r.Some? {
      var i := r.value;
      IdIsIndexed(i);
      assert IndexOfId(id) == i;
    } else if IndexOfId(id) != -1 {
      IndexedIdsMatch(id);
      assert false;
    }
  }

  /** The ids of the entry at `i` are indexed at `i`. */
  lemma IdIsIndexed(i: nat)
    requires i < |Registry|
    ensures IndexOfId(Registry[i].chainId) == i
    ensures Registry[i].testnetChainId.Some? ==> IndexOfId(Registry[i].testnetChainId.value) == i
  {
    IdsAreIndexed();
  }

  /** The search by key finds the entry the reference index names, and only that one. */
  lemma SearchByKey(key: string)
    ensures FindKeyFrom(Registry, key, 0) == if IndexOfKey(key) == -1 then None else Some(IndexOfKey(key))
  {
    KeysAreIndexed();
    if IndexOfKey(key) != -1 {
      IndexedKeysMatch(key);
    }
  }

  /**
   * The numeric lookup agrees with the reference index: it answers with the
   * one entry declaring `id`, and fails exactly on the ids no entry declares.
   */
  lemma LookupById(id: int)
    ensures GetChainConfig(ById(id)) ==
              if IndexOfId(id) == -1 then Failure(UnsupportedChainId(id))
              else Success(Entry(IndexOfId(id)))
  {
    SearchById(id);
  }

  /**
   * The name lookup agrees with the reference index on the lower-cased name;
   * a failure reports the name as given and the list of supported keys.
   */
  lemma LookupByName(name: string)
    ensures GetChainConfig(ByName(name)) ==
              if IndexOfKey(ToLower(name)) == -1 then Failure(UnsupportedChain(name, GetSupportedChains()))
              else Success(Entry(IndexOfKey(ToLower(name))))
  {
    SearchByKey(ToLower(name));
  }

  /** Round trip: looking up an entry's mainnet id, testnet id or key gives back that entry. */
  lemma RoundTrip(i: nat)
    requires i < |Registry|
    ensures GetChainConfig(ById(Registry[i].chainId)) == Success(Entry(i))
    ensures Registry[i].testnetChainId.Some? ==>
              GetChainConfig(ById(Registry[i].testnetChainId.value)) == Success(Entry(i))
    ensures GetChainConfig(ByName(Registry[i].key)) == Success(Entry(i))
  {
    IdsAreIndexed();
    LookupById(Registry[i].chainId);
    if Registry[i].testnetChainId.Some? {
      LookupById(Registry[i].testnetChainId.value);
    }
    KeysAreIndexed();
    KeysAreLowerCase();
    LowerCaseIsFixed(Registry[i].key);
    LookupByName(Registry[i].key);
  }

  /**
   * The name lookup ignores case: any spelling that lower-cases to a key
   * finds that entry, and two spellings with the same lower case are either
   * both supported with the same answer or both unsupported.
   */
  lemma NameLookupIgnoresCase(name: string, other: string)
    requires ToLower(name) == ToLower(other)
    ensures IsChainSupported(ByName(name)) == IsChainSupported(ByName(other))
    ensures IsChainSupported(ByName(name)) ==> GetChainConfig(ByName(name)) == GetChainConfig(ByName(other))
    ensures forall i :: 0 <= i < |Registry| && ToLower(name) == Registry[i].key ==>
              GetChainConfig(ByName(name)) == Success(Entry(i))
  {
    KeysAreIndexed();
    LookupByName(name);
  }

  /** `isChainSupported` is exactly membership in the table, by id or by lower-cased key. */
  lemma SupportedIff(ref: ChainRef)
    ensures ref.ById? ==>
              (IsChainSupported(ref) <==> exists i :: 0 <= i < |Registry| && MatchesId(Registry[i], ref.id))
    ensures ref.ByName? ==>
              (IsChainSupported(ref) <==> ToLower(ref.name) in GetSupportedChains())
  {
    match ref
    case ById(id) =>
      if IsChainSupported(ref) {
        var i := FindIdFrom(Registry, id, 0).value;
        assert MatchesId(Registry[i], id);
      }
    case ByName(name) =>
      var keys := GetSupportedChains();
      if ToLower(name) in keys {
        var i :| 0 <= i < |keys| && keys[i] == ToLower(name);
        assert Registry[i].key == ToLower(name);
      }
  }

  /** The supported list is the 22 keys in declaration order, with no repetition. */
  lemma SupportedChainsListed()
    ensures GetSupportedChains() ==
              ["ethereum", "bnb", "optimism", "polygon", "fantom", "base", "arbitrum", "avalanche",
               "linea", "blast", "scroll", "mantle", "monad", "berachain", "sonic", "worldchain",
               "abstract", "mode", "celo", "unichain", "ink", "plasma"]
    ensures forall i, j :: 0 <= i < j < |GetSupportedChains()| ==> GetSupportedChains()[i] != GetSupportedChains()[j]
  {
    KeysAreIndexed();
  }
}
