/** Configuration of the bot: the TradingConfig record of src/types/index.ts,
    the defaults of src/config/constants.ts and the start-up validation of
    src/config/index.ts. Environment loading is not part of this model: a
    configuration arrives as a value. */
module Config {
  import opened Types

  datatype Network = Testnet | Mainnet

  /** An absent environment variable reads as the empty string. */
  datatype ParadexConfig = ParadexConfig(
    starknetAddress: string,
    starknetPublicKey: string,
    starknetPrivateKey: string,
    ethereumAddress: string)

  /** `accountIndex` is None when parseInt produced NaN. */
  datatype LighterConfig = LighterConfig(
    privateKey: string,
    accountIndex: Option<int>,
    apiKeyIndex: int)

  datatype StrategyConfig = StrategyConfig(
    orderSize: real,
    holdTimeMin: int,
    holdTimeMax: int,
    intervalTimeMin: int,
    intervalTimeMax: int,
    orderType: string,
    fillTimeoutMs: int,
    fillCheckIntervalMs: int,
    maxRetries: int)

  datatype RiskConfig = RiskConfig(
    maxNetPosition: real,
    maxPositionDeviation: real,
    priceSlippageTolerance: real)

  datatype TradingConfig = TradingConfig(
    network: Network,
    symbol: string,
    paradex: ParadexConfig,
    lighter: LighterConfig,
    strategy: StrategyConfig,
    risk: RiskConfig,
    monitoringIntervalSeconds: int)

  // Defaults of src/config/constants.ts
  const DefaultOrderSize: real := 0.01
  const DefaultHoldTimeMin: int := 60
  const DefaultHoldTimeMax: int := 120
  const DefaultIntervalTimeMin: int := 10
  const DefaultIntervalTimeMax: int := 20
  const DefaultFillTimeoutMs: int := 5000
  const DefaultFillCheckIntervalMs: int := 500
  const DefaultMaxRetries: int := 3
  const DefaultMaxNetPosition: real := 0.1
  const DefaultMaxPositionDeviation: real := 0.05
  const DefaultPriceSlippageTolerance: real := 0.002
  const DefaultMonitorIntervalSeconds: int := 300

  /** The risk thresholds a configuration gets when nothing overrides them. */
  function DefaultRisk(): (r: RiskConfig)
    ensures r == RiskConfig(0.1, 0.05, 0.002)
    ensures r.maxPositionDeviation < r.maxNetPosition
    ensures 0.0 < r.priceSlippageTolerance < r.maxPositionDeviation
  {
    RiskConfig(DefaultMaxNetPosition, DefaultMaxPositionDeviation, DefaultPriceSlippageTolerance)
  }

  /** The exported configuration is the mainnet one exactly when ENV is "mainnet". */
  function SelectConfig(env: string, mainnet: TradingConfig, testnet: TradingConfig): (c: TradingConfig)
    ensures env == "mainnet" ==> c == mainnet
    ensures env != "mainnet" ==> c == testnet
  {
    if env == "mainnet" then mainnet else testnet
  }

  /** The checks of validateConfig, listed in the order the source runs them. */
  datatype ConfigError =
    | MissingParadexPrivateKey
    | MissingParadexAddress
    | MissingParadexL1Address
    | MissingLighterPrivateKey
    | InvalidLighterAccountIndex
    | NonPositiveOrderSize
    | InvalidOrderType
    | NonPositiveMaxNetPosition

  /** Position of a check in the source's sequence of checks. */
  function CheckRank(e: ConfigError): (k: nat)
    ensures k < 8
  {
    match e
    case MissingParadexPrivateKey => 0
    case MissingParadexAddress => 1
    case MissingParadexL1Address => 2
    case MissingLighterPrivateKey => 3
    case InvalidLighterAccountIndex => 4
    case NonPositiveOrderSize => 5
    case InvalidOrderType => 6
    case NonPositiveMaxNetPosition => 7
  }

  /** Whether configuration `c` fails the check that reports `e`. The Starknet
      public key is deliberately absent: it is derived from the private key. */
  predicate Fails(c: TradingConfig, e: ConfigError)
  {
    match e
    case MissingParadexPrivateKey => c.paradex.starknetPrivateKey == ""
    case MissingParadexAddress => c.paradex.starknetAddress == ""
    case MissingParadexL1Address => c.paradex.ethereumAddress == ""
    case MissingLighterPrivateKey => c.lighter.privateKey == ""
    case InvalidLighterAccountIndex => c.lighter.accountIndex.None?
    case NonPositiveOrderSize => c.strategy.orderSize <= 0.0
    case InvalidOrderType => c.strategy.orderType !in ["market", "limit"]
    case NonPositiveMaxNetPosition => c.risk.maxNetPosition <= 0.0
  }

  predicate InCheckOrder(errors: seq<ConfigError>)
  {
    forall i, j :: 0 <= i < j < |errors| ==> CheckRank(errors[i]) < CheckRank(errors[j])
  }

  /** The check of rank `k`, for k < 8. */
  function CheckAt(k: nat): (e: ConfigError)
    requires k < 8
    ensures CheckRank(e) == k
  {
    [MissingParadexPrivateKey, MissingParadexAddress, MissingParadexL1Address,
     MissingLighterPrivateKey, InvalidLighterAccountIndex, NonPositiveOrderSize,
     InvalidOrderType, NonPositiveMaxNetPosition][k]
  }

  /** The failed checks among the first `k`, in check order. */
  ghost function Collected(c: TradingConfig, k: nat): seq<ConfigError>
    requires k <= 8
  {
    if k == 0 then []
    else Collected(c, k - 1) + (if Fails(c, CheckAt(k - 1)) then [CheckAt(k - 1)] else [])
  }

  /** The failed checks among the first `k` are collected exactly once each and
      in check order. */
  lemma {:induction false} CollectedExactly(c: TradingConfig, k: nat)
    requires k <= 8
    ensures InCheckOrder(Collected(c, k))
    ensures forall x :: x in Collected(c, k) ==> CheckRank(x) < k
    ensures forall x :: CheckRank(x) < k ==> (x in Collected(c, k) <==> Fails(c, x))
    ensures k == 8 ==> forall x :: x in Collected(c, k) <==> Fails(c, x)
  {
    hide Fails, CheckAt, CheckRank;
    if k > 0 {
      CollectedExactly(c, k - 1);
      forall x | CheckRank(x) < k
        ensures x in Collected(c, k) <==> Fails(c, x)
      {
        if CheckRank(x) == k - 1 {
          RankInjective(x, CheckAt(k - 1));
        }
      }
      if k == 8 {
        forall x ensures x in Collected(c, k) <==> Fails(c, x) {
          assert CheckRank(x) < 8;
        }
      }
    }
  }

  /** A list that holds exactly the failed checks is empty exactly when no
      check fails. */
  lemma EmptyIffAllPass(c: TradingConfig, errors: seq<ConfigError>)
    requires forall e :: e in errors <==> Fails(c, e)
    ensures |errors| == 0 <==> forall e :: !Fails(c, e)
  {
    if |errors| > 0 {
      assert errors[0] in errors;
    }
  }

  lemma RankInjective(x: ConfigError, y: ConfigError)
    requires CheckRank(x) == CheckRank(y)
    ensures x == y
  {
  }

  /** validateConfig: collects one error per failed check, in check order, and
      throws (Failure) exactly when at least one check failed. The checks run
      in the source's four groups: Paradex keys, Lighter keys, strategy
      parameters, risk parameters. */
  method ValidateConfig(c: TradingConfig) returns (r: Result<(), seq<ConfigError>>)
    ensures r.Success? <==> forall e :: !Fails(c, e)
    ensures r.Failure? ==> |r.error| > 0 && InCheckOrder(r.error)
    ensures r.Failure? ==> forall e :: e in r.error <==> Fails(c, e)
  {
    var errors: seq<ConfigError> := [];
    errors := CheckParadex(c, errors);
    errors := CheckLighter(c, errors);
    errors := CheckStrategy(c, errors);
    errors := CheckRisk(c, errors);
    r := ThrowIfAny(c, errors);
  }

  /** The Paradex checks: private key, account address, L1 address. The public
      key is optional. */
  method CheckParadex(c: TradingConfig, errors: seq<ConfigError>) returns (out: seq<ConfigError>)
    requires errors == Collected(c, 0)
    ensures out == Collected(c, 3)
  {
    out := errors;
    if c.paradex.starknetPrivateKey == "" {
      out := out + [MissingParadexPrivateKey];
    }
    assert out == Collected(c, 1);
    if c.paradex.starknetAddress == "" {
      out := out + [MissingParadexAddress];
    }
    assert out == Collected(c, 2);
    if c.paradex.ethereumAddress == "" {
      out := out + [MissingParadexL1Address];
    }
  }

  /** The Lighter checks: private key, numeric account index. */
  method CheckLighter(c: TradingConfig, errors: seq<ConfigError>) returns (out: seq<ConfigError>)
    requires errors == Collected(c, 3)
    ensures out == Collected(c, 5)
  {
    out := errors;
    if c.lighter.privateKey == "" {
      out := out + [MissingLighterPrivateKey];
    }
    assert out == Collected(c, 4);
    if c.lighter.accountIndex.None? {
      out := out + [InvalidLighterAccountIndex];
    }
  }

  /** The strategy checks: positive order size, known order type. */
  method CheckStrategy(c: TradingConfig, errors: seq<ConfigError>) returns (out: seq<ConfigError>)
    requires errors == Collected(c, 5)
    ensures out == Collected(c, 7)
  {
    out := errors;
    if c.strategy.orderSize <= 0.0 {
      out := out + [NonPositiveOrderSize];
    }
    assert out == Collected(c, 6);
    if c.strategy.orderType !in ["market", "limit"] {
      out := out + [InvalidOrderType];
    }
  }

  /** The risk check: positive maximum net position. */
  method CheckRisk(c: TradingConfig, errors: seq<ConfigError>) returns (out: seq<ConfigError>)
    requires errors == Collected(c, 7)
    ensures out == Collected(c, 8)
  {
    out := errors;
    if c.risk.maxNetPosition <= 0.0 {
      out := out + [NonPositiveMaxNetPosition];
    }
  }

  /** The final step of validateConfig: throw with the collected messages when
      there is at least one. */
  function ThrowIfAny(c: TradingConfig, errors: seq<ConfigError>): (r: Result<(), seq<ConfigError>>)
    requires errors == Collected(c, 8)
    ensures r.Success? <==> forall e :: !Fails(c, e)
    ensures r.Failure? ==> |r.error| > 0 && InCheckOrder(r.error)
    ensures r.Failure? ==> forall e :: e in r.error <==> Fails(c, e)
  {
    CollectedExactly(c, 8);
    EmptyIffAllPass(c, errors);
    if |errors| > 0 then Failure(errors) else Success(())
  }

  /** Changing only the Starknet public key never changes any check's verdict. */
  lemma PublicKeyOptional(c: TradingConfig, key: string)
    ensures forall e :: Fails(c, e) == Fails(c.(paradex := c.paradex.(starknetPublicKey := key)), e)
  {
  }
}
