/** The relayer's configuration (package `util`, util/config.go) and its
    start-up validation. Each validator checks fields in a fixed order and
    panics on the first failure; here a panic is `Panic(message)` with the
    same message. `ChainConfig.Validate` also raises the confirmation depth
    in place, so `ChainConfig` is a class and its validation a method. */
module Util {
  import opened GoTypes
  import opened Common
  import opened Checks

  const KeyTypeMnemonic: string := "mnemonic"
  const KeyTypeAWSMnemonic: string := "aws_mnemonic"

  // The panic messages, in the order the validators raise them.

  const MonikerEmpty: string := "moniker should not be empty"
  const BlockUpdateTimeOutNotPositive: string := "block_update_time_out should be larger than 0"
  const PackageDelayAlertThresholdNotPositive: string := "package_delay_alert_threshold should be larger than 0"

  const DialectUnsupported: string := "only " + DBDialectMysql + " and " + DBDialectSqlite3 + " supported"
  const DBPathEmpty: string := "db path should not be empty"

  const StartHeightNegative: string := "asc_start_height should not be less than 0"
  const ProvidersEmpty: string := "asc_providers should not be empty"
  const ConfirmNumNotPositive: string := "asc_confirm_num should be larger than 0"
  const ContractAddressEmpty: string := "asc_token_hub_contract_address should not be empty"
  const RpcAddrsEmpty: string := "afc_rpc_addrs should not be empty"
  const KeyTypeUnsupported: string := "afc_key_type of axim chain only supports " + KeyTypeMnemonic + " and " + KeyTypeAWSMnemonic
  const AWSRegionEmpty: string := "afc_aws_region of axim chain should not be empty"
  const AWSSecretNameEmpty: string := "afc_aws_secret_name of axim chain should not be empty"
  const MnemonicEmpty: string := "afc_mnemonic should not be empty"
  const RelayIntervalNotPositive: string := "relay interval should be larger than 0"

  const FilenameEmpty: string := "filename should not be empty if use file logger"
  const MaxFileSizeNotPositive: string := "max_file_size_in_mb should be larger than 0 if use file logger"
  const MaxBackupsNotPositive: string := "max_backups_off_log_files should be larger than 0 if use file logger"

  // ---------------------------------------------------------------- alert

  datatype AlertConfig = AlertConfig(
    moniker: string,
    telegramBotId: string,
    telegramChatId: string,
    pagerDutyAuthToken: string,
    blockUpdateTimeOut: int64,
    packageDelayAlertThreshold: int64)

  /** `AlertConfig.Validate`: fails exactly when the moniker is empty or
      either alert threshold is not positive; the Telegram and PagerDuty
      settings are never looked at. */
  function ValidateAlertConfig(a: AlertConfig): (r: Outcome)
    ensures r.Ok? <==> a.moniker != "" && a.blockUpdateTimeOut > 0 && a.packageDelayAlertThreshold > 0
    ensures a.moniker == "" ==> r == Panic(MonikerEmpty)
  {
    if a.moniker == "" then Panic(MonikerEmpty)
    else if a.blockUpdateTimeOut <= 0 then Panic(BlockUpdateTimeOutNotPositive)
    else if a.packageDelayAlertThreshold <= 0 then Panic(PackageDelayAlertThresholdNotPositive)
    else Ok
  }

  // ---------------------------------------------------------------- database

  datatype DBConfig = DBConfig(dialect: string, dbPath: string)

  predicate SupportedDialect(dialect: string)
  {
    dialect == DBDialectMysql || dialect == DBDialectSqlite3
  }

  /** `DBConfig.Validate`: succeeds only for a supported dialect and a
      non-empty path, and reports a bad dialect before an empty path. */
  function ValidateDBConfig(d: DBConfig): (r: Outcome)
    ensures r.Ok? <==> SupportedDialect(d.dialect) && d.dbPath != ""
    ensures !SupportedDialect(d.dialect) ==> r == Panic(DialectUnsupported)
  {
    if d.dialect != DBDialectMysql && d.dialect != DBDialectSqlite3 then Panic(DialectUnsupported)
    else if d.dbPath == "" then Panic(DBPathEmpty)
    else Ok
  }

  // ---------------------------------------------------------------- log

  /** Go `int` fields are 64 bits wide on the platforms the relayer targets. */
  datatype LogConfig = LogConfig(
    level: string,
    filename: string,
    maxFileSizeInMB: int64,
    maxBackupsOfLogFiles: int64,
    maxAgeToRetainLogFilesInDays: int64,
    useConsoleLogger: bool,
    useFileLogger: bool,
    compress: bool)

  /** `LogConfig.Validate`: only a file logger is checked, and then only its
      file name, size limit and backup count. */
  function ValidateLogConfig(l: LogConfig): (r: Outcome)
    ensures !l.useFileLogger ==> r.Ok?
    ensures r.Ok? <==> !l.useFileLogger || (l.filename != "" && l.maxFileSizeInMB > 0 && l.maxBackupsOfLogFiles > 0)
  {
    if l.useFileLogger then
      if l.filename == "" then Panic(FilenameEmpty)
      else if l.maxFileSizeInMB <= 0 then Panic(MaxFileSizeNotPositive)
      else if l.maxBackupsOfLogFiles <= 0 then Panic(MaxBackupsNotPositive)
      else Ok
    else Ok
  }

  // ---------------------------------------------------------------- admin

  /** Carried in the configuration but never validated. */
  datatype AdminConfig = AdminConfig(listenAddr: string)

  // ---------------------------------------------------------------- chain

  /** The value of a `ChainConfig` at one moment. */
  datatype ChainFields = ChainFields(
    ascStartHeight: int64,
    ascProviders: seq<string>,
    ascConfirmNum: int64,
    ascChainId: uint16,
    ascCrossChainContractAddress: Address,
    afcRpcAddrs: seq<string>,
    afcMnemonic: string,
    afcKeyType: string,
    afcAWSRegion: string,
    afcAWSSecretName: string,
    relayInterval: int64)

  /** The three checks that run before the confirmation depth is raised. */
  function ChainPreliminary(s: ChainFields): (r: Outcome)
    ensures r.Ok? <==> s.ascStartHeight >= 0 && |s.ascProviders| > 0 && s.ascConfirmNum > 0
  {
    if s.ascStartHeight < 0 then Panic(StartHeightNegative)
    else if |s.ascProviders| == 0 then Panic(ProvidersEmpty)
    else if s.ascConfirmNum <= 0 then Panic(ConfirmNumNotPositive)
    else Ok
  }

  /** The key source is usable: an AWS secret with its region and name, or
      an inline mnemonic. */
  predicate KeySourceComplete(s: ChainFields)
  {
    || (s.afcKeyType == KeyTypeAWSMnemonic && s.afcAWSRegion != "" && s.afcAWSSecretName != "")
    || (s.afcKeyType == KeyTypeMnemonic && s.afcMnemonic != "")
  }

  /** The key-source checks: the key type must be one of the two known
      ones, and the source it names must be filled in. */
  function KeySourceCheck(s: ChainFields): (r: Outcome)
    ensures r.Ok? <==> KeySourceComplete(s)
  {
    if s.afcKeyType != KeyTypeMnemonic && s.afcKeyType != KeyTypeAWSMnemonic then Panic(KeyTypeUnsupported)
    else if s.afcKeyType == KeyTypeAWSMnemonic && s.afcAWSRegion == "" then Panic(AWSRegionEmpty)
    else if s.afcKeyType == KeyTypeAWSMnemonic && s.afcAWSSecretName == "" then Panic(AWSSecretNameEmpty)
    else if s.afcKeyType == KeyTypeMnemonic && s.afcMnemonic == "" then Panic(MnemonicEmpty)
    else Ok
  }

  /** The checks that run after the confirmation depth is raised; none of
      them reads the depth. */
  function ChainLater(s: ChainFields): (r: Outcome)
    ensures r.Ok? <==>
      && s.ascCrossChainContractAddress != ZeroAddress
      && |s.afcRpcAddrs| > 0
      && KeySourceComplete(s)
      && s.relayInterval > 0
  {
    AddressStringInjective(s.ascCrossChainContractAddress, ZeroAddress);
    if AddressString(s.ascCrossChainContractAddress) == AddressString(ZeroAddress) then Panic(ContractAddressEmpty)
    else if |s.afcRpcAddrs| == 0 then Panic(RpcAddrsEmpty)
    else if KeySourceCheck(s).Panic? then KeySourceCheck(s)
    else if s.relayInterval <= 0 then Panic(RelayIntervalNotPositive)
    else Ok
  }

  /** The outcome of `ChainConfig.Validate` on a chain configuration. */
  function ChainOutcome(s: ChainFields): (r: Outcome)
    ensures r.Ok? <==> ChainPreliminary(s).Ok? && ChainLater(s).Ok?
    ensures s.ascStartHeight < 0 ==> r == Panic(StartHeightNegative)
  {
    if ChainPreliminary(s).Panic? then ChainPreliminary(s) else ChainLater(s)
  }

  /** The chain configuration after `ChainConfig.Validate`: once the three
      preliminary checks pass, the confirmation depth is at least
      `DefaultConfirmNum`, whether or not a later check fails; nothing else
      ever changes. */
  function ChainAfter(s: ChainFields): (t: ChainFields)
    ensures t == s.(ascConfirmNum := t.ascConfirmNum)
    ensures ChainPreliminary(s).Ok? ==> t.ascConfirmNum == Max(s.ascConfirmNum, DefaultConfirmNum)
    ensures ChainPreliminary(s).Panic? ==> t == s
  {
    if ChainPreliminary(s).Ok? && s.ascConfirmNum <= DefaultConfirmNum then
      s.(ascConfirmNum := DefaultConfirmNum)
    else
      s
  }

  class ChainConfig {
    var ascStartHeight: int64
    var ascProviders: seq<string>
    var ascConfirmNum: int64
    var ascChainId: uint16
    var ascCrossChainContractAddress: Address
    var afcRpcAddrs: seq<string>
    var afcMnemonic: string
    var afcKeyType: string
    var afcAWSRegion: string
    var afcAWSSecretName: string
    var relayInterval: int64

    function Fields(): ChainFields
      reads this
    {
      ChainFields(ascStartHeight, ascProviders, ascConfirmNum, ascChainId, ascCrossChainContractAddress,
                  afcRpcAddrs, afcMnemonic, afcKeyType, afcAWSRegion, afcAWSSecretName, relayInterval)
    }

    /** A struct literal or a decoded JSON document. */
    constructor (f: ChainFields)
      ensures Fields() == f
    {
      ascStartHeight := f.ascStartHeight;
      ascProviders := f.ascProviders;
      ascConfirmNum := f.ascConfirmNum;
      ascChainId := f.ascChainId;
      ascCrossChainContractAddress := f.ascCrossChainContractAddress;
      afcRpcAddrs := f.afcRpcAddrs;
      afcMnemonic := f.afcMnemonic;
      afcKeyType := f.afcKeyType;
      afcAWSRegion := f.afcAWSRegion;
      afcAWSSecretName := f.afcAWSSecretName;
      relayInterval := f.relayInterval;
    }

    /** `ChainConfig.Validate`: runs the checks in order, raising the
        confirmation depth to `DefaultConfirmNum` after the third; returns
        the first failure, leaving the raised depth in place. */
    method Validate() returns (outcome: Outcome)
      modifies this
      ensures outcome == ChainOutcome(old(Fields()))
      ensures Fields() == ChainAfter(old(Fields()))
      ensures outcome.Ok? ==> ascConfirmNum >= DefaultConfirmNum && ascConfirmNum >= old(ascConfirmNum)
    {
      if ascStartHeight < 0 {
        return Panic(StartHeightNegative);
      }
      if |ascProviders| == 0 {
        return Panic(ProvidersEmpty);
      }
      if ascConfirmNum <= 0 {
        return Panic(ConfirmNumNotPositive);
      }

      if ascConfirmNum <= DefaultConfirmNum {
        ascConfirmNum := DefaultConfirmNum;
      }

      var emptyAddr := ZeroAddress;
      if AddressString(ascCrossChainContractAddress) == AddressString(emptyAddr) {
        return Panic(ContractAddressEmpty);
      }

      if |afcRpcAddrs| == 0 {
        return Panic(RpcAddrsEmpty);
      }
      if afcKeyType != KeyTypeMnemonic && afcKeyType != KeyTypeAWSMnemonic {
        return Panic(KeyTypeUnsupported);
      }
      if afcKeyType == KeyTypeAWSMnemonic && afcAWSRegion == "" {
        return Panic(AWSRegionEmpty);
      }
      if afcKeyType == KeyTypeAWSMnemonic && afcAWSSecretName == "" {
        return Panic(AWSSecretNameEmpty);
      }
      if afcKeyType == KeyTypeMnemonic && afcMnemonic == "" {
        return Panic(MnemonicEmpty);
      }

      if relayInterval <= 0 {
        return Panic(RelayIntervalNotPositive);
      }
      return Ok;
    }
  }

  // ---------------------------------------------------------------- whole configuration

  /** The top-level configuration. Go holds each section by pointer; only
      the chain section is ever changed through it, so only that one is an
      object here. */
  datatype Config = Config(
    dbConfig: DBConfig,
    chainConfig: ChainConfig,
    logConfig: LogConfig,
    alertConfig: AlertConfig,
    adminConfig: AdminConfig)

  /** The value of a `Config` at one moment. */
  datatype ConfigView = ConfigView(
    db: DBConfig,
    chain: ChainFields,
    log: LogConfig,
    alert: AlertConfig,
    admin: AdminConfig)

  function View(cfg: Config): ConfigView
    reads cfg.chainConfig
  {
    ConfigView(cfg.dbConfig, cfg.chainConfig.Fields(), cfg.logConfig, cfg.alertConfig, cfg.adminConfig)
  }

  /** The outcome of `Config.Validate`: the database, chain, log and alert
      sections are validated in that order and the first failure is
      reported; the admin section is not validated. */
  function ConfigOutcome(v: ConfigView): (r: Outcome)
    ensures r.Ok? <==>
      && ValidateDBConfig(v.db).Ok?
      && ChainOutcome(v.chain).Ok?
      && ValidateLogConfig(v.log).Ok?
      && ValidateAlertConfig(v.alert).Ok?
    ensures ValidateDBConfig(v.db).Panic? ==> r == ValidateDBConfig(v.db)
    ensures ValidateDBConfig(v.db).Ok? && ChainOutcome(v.chain).Panic? ==> r == ChainOutcome(v.chain)
    ensures ValidateDBConfig(v.db).Ok? && ChainOutcome(v.chain).Ok? && ValidateLogConfig(v.log).Panic?
            ==> r == ValidateLogConfig(v.log)
    ensures ValidateDBConfig(v.db).Ok? && ChainOutcome(v.chain).Ok? && ValidateLogConfig(v.log).Ok?
            ==> r == ValidateAlertConfig(v.alert)
  {
    if ValidateDBConfig(v.db).Panic? then ValidateDBConfig(v.db)
    else if ChainOutcome(v.chain).Panic? then ChainOutcome(v.chain)
    else if ValidateLogConfig(v.log).Panic? then ValidateLogConfig(v.log)
    else ValidateAlertConfig(v.alert)
  }

  /** The configuration after `Config.Validate`: the chain section has been
      normalised if validation reached it. */
  function ConfigAfter(v: ConfigView): (w: ConfigView)
    ensures w == v.(chain := w.chain)
    ensures ValidateDBConfig(v.db).Panic? ==> w == v
    ensures ValidateDBConfig(v.db).Ok? ==> w.chain == ChainAfter(v.chain)
  {
    if ValidateDBConfig(v.db).Ok? then v.(chain := ChainAfter(v.chain)) else v
  }

  /** `Config.Validate`. */
  method ValidateConfig(cfg: Config) returns (outcome: Outcome)
    modifies cfg.chainConfig
    ensures outcome == ConfigOutcome(old(View(cfg)))
    ensures View(cfg) == ConfigAfter(old(View(cfg)))
  {
    outcome := ValidateDBConfig(cfg.dbConfig);
    if outcome.Panic? {
      return;
    }
    outcome := cfg.chainConfig.Validate();
    if outcome.Panic? {
      return;
    }
    outcome := ValidateLogConfig(cfg.logConfig);
    if outcome.Panic? {
      return;
    }
    outcome := ValidateAlertConfig(cfg.alertConfig);
  }
}
