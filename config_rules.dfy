/** The documented requirements of each configuration section, written as
    ordered rule tables, and the proofs that the validators of util/config.go
    are exactly "panic with the first violated rule". From that follow the
    ordering properties (which failure is reported), the normalisation of
    the confirmation depth and the idempotence of validation. */
module ConfigRules {
  import opened GoTypes
  import opened Common
  import opened Checks
  import opened Util

  // ---------------------------------------------------------------- tables

  function AlertRules(): seq<Rule<AlertConfig>>
  {
    [ Rule((a: AlertConfig) => a.moniker == "", MonikerEmpty),
      Rule((a: AlertConfig) => a.blockUpdateTimeOut <= 0, BlockUpdateTimeOutNotPositive),
      Rule((a: AlertConfig) => a.packageDelayAlertThreshold <= 0, PackageDelayAlertThresholdNotPositive) ]
  }

  function DBRules(): seq<Rule<DBConfig>>
  {
    [ Rule((d: DBConfig) => !SupportedDialect(d.dialect), DialectUnsupported),
      Rule((d: DBConfig) => d.dbPath == "", DBPathEmpty) ]
  }

  function LogRules(): seq<Rule<LogConfig>>
  {
    [ Rule((l: LogConfig) => l.useFileLogger && l.filename == "", FilenameEmpty),
      Rule((l: LogConfig) => l.useFileLogger && l.maxFileSizeInMB <= 0, MaxFileSizeNotPositive),
      Rule((l: LogConfig) => l.useFileLogger && l.maxBackupsOfLogFiles <= 0, MaxBackupsNotPositive) ]
  }

  /** The chain checks made before the confirmation depth is raised. */
  function ChainPreliminaryRules(): seq<Rule<ChainFields>>
  {
    [ Rule((s: ChainFields) => s.ascStartHeight < 0, StartHeightNegative),
      Rule((s: ChainFields) => |s.ascProviders| == 0, ProvidersEmpty),
      Rule((s: ChainFields) => s.ascConfirmNum <= 0, ConfirmNumNotPositive) ]
  }

  /** The key-source checks. */
  function KeySourceRules(): seq<Rule<ChainFields>>
  {
    [ Rule((s: ChainFields) => s.afcKeyType != KeyTypeMnemonic && s.afcKeyType != KeyTypeAWSMnemonic, KeyTypeUnsupported),
      Rule((s: ChainFields) => s.afcKeyType == KeyTypeAWSMnemonic && s.afcAWSRegion == "", AWSRegionEmpty),
      Rule((s: ChainFields) => s.afcKeyType == KeyTypeAWSMnemonic && s.afcAWSSecretName == "", AWSSecretNameEmpty),
      Rule((s: ChainFields) => s.afcKeyType == KeyTypeMnemonic && s.afcMnemonic == "", MnemonicEmpty) ]
  }

  /** The chain checks made after the depth is raised; none of them reads it. */
  function ChainLaterRules(): seq<Rule<ChainFields>>
  {
    [ Rule((s: ChainFields) => s.ascCrossChainContractAddress == ZeroAddress, ContractAddressEmpty),
      Rule((s: ChainFields) => |s.afcRpcAddrs| == 0, RpcAddrsEmpty) ]
    + KeySourceRules()
    + [ Rule((s: ChainFields) => s.relayInterval <= 0, RelayIntervalNotPositive) ]
  }

  function ChainRules(): seq<Rule<ChainFields>>
  {
    ChainPreliminaryRules() + ChainLaterRules()
  }

  // ---------------------------------------------------------------- the validators follow their tables
  // On the short tables Dafny unfolds `Check` rule by rule without help; the
  // composite chain tables are split with `CheckAppend`.

  lemma AlertFollowsRules(a: AlertConfig)
    ensures ValidateAlertConfig(a) == Check(AlertRules(), a)
  {
  }

  lemma DBFollowsRules(d: DBConfig)
    ensures ValidateDBConfig(d) == Check(DBRules(), d)
  {
  }

  lemma LogFollowsRules(l: LogConfig)
    ensures ValidateLogConfig(l) == Check(LogRules(), l)
  {
  }

  lemma ChainPreliminaryFollowsRules(s: ChainFields)
    ensures ChainPreliminary(s) == Check(ChainPreliminaryRules(), s)
  {
  }

  lemma KeySourceFollowsRules(s: ChainFields)
    ensures KeySourceCheck(s) == Check(KeySourceRules(), s)
  {
  }

  lemma ChainLaterFollowsRules(s: ChainFields)
    ensures ChainLater(s) == Check(ChainLaterRules(), s)
  {
    var front := [ Rule((s: ChainFields) => s.ascCrossChainContractAddress == ZeroAddress, ContractAddressEmpty),
                   Rule((s: ChainFields) => |s.afcRpcAddrs| == 0, RpcAddrsEmpty) ];
    var last := [ Rule((s: ChainFields) => s.relayInterval <= 0, RelayIntervalNotPositive) ];
    assert ChainLaterRules() == front + KeySourceRules() + last;
    CheckAppend(front + KeySourceRules(), last, s);
    CheckAppend(front, KeySourceRules(), s);
    KeySourceFollowsRules(s);
    AddressStringInjective(s.ascCrossChainContractAddress, ZeroAddress);
    CheckStep(front, s, 1);
    assert |last[1..]| == 0;
  }

  lemma ChainOutcomeFollowsRules(s: ChainFields)
    ensures ChainOutcome(s) == Check(ChainRules(), s)
  {
    ChainPreliminaryFollowsRules(s);
    ChainLaterFollowsRules(s);
    CheckAppend(ChainPreliminaryRules(), ChainLaterRules(), s);
  }

  // ---------------------------------------------------------------- which failure is reported

  /** The alert section passes exactly when no rule is violated, and
      otherwise reports the first violated rule. */
  lemma AlertReportsFirstViolation(a: AlertConfig)
    ensures ValidateAlertConfig(a).Ok? <==> forall k :: 0 <= k < |AlertRules()| ==> !AlertRules()[k].violated(a)
    ensures forall k :: FirstViolated(AlertRules(), a, k) ==> ValidateAlertConfig(a) == Panic(AlertRules()[k].message)
  {
    AlertFollowsRules(a);
    forall k | FirstViolated(AlertRules(), a, k)
      ensures ValidateAlertConfig(a) == Panic(AlertRules()[k].message)
    {
      CheckReportsFirst(AlertRules(), a, k);
    }
  }

  /** In particular an unsupported dialect is reported before an empty path. */
  lemma DBReportsFirstViolation(d: DBConfig)
    ensures ValidateDBConfig(d).Ok? <==> forall k :: 0 <= k < |DBRules()| ==> !DBRules()[k].violated(d)
    ensures forall k :: FirstViolated(DBRules(), d, k) ==> ValidateDBConfig(d) == Panic(DBRules()[k].message)
  {
    DBFollowsRules(d);
    forall k | FirstViolated(DBRules(), d, k)
      ensures ValidateDBConfig(d) == Panic(DBRules()[k].message)
    {
      CheckReportsFirst(DBRules(), d, k);
    }
  }

  lemma LogReportsFirstViolation(l: LogConfig)
    ensures ValidateLogConfig(l).Ok? <==> forall k :: 0 <= k < |LogRules()| ==> !LogRules()[k].violated(l)
    ensures forall k :: FirstViolated(LogRules(), l, k) ==> ValidateLogConfig(l) == Panic(LogRules()[k].message)
  {
    LogFollowsRules(l);
    forall k | FirstViolated(LogRules(), l, k)
      ensures ValidateLogConfig(l) == Panic(LogRules()[k].message)
    {
      CheckReportsFirst(LogRules(), l, k);
    }
  }

  /** The chain section runs its ten checks in the fixed order start
      height, providers, confirmation depth, contract address, RPC
      addresses, key type, AWS region, AWS secret name, mnemonic, relay
      interval, and reports the first that fails. */
  lemma ChainReportsFirstViolation(s: ChainFields)
    ensures ChainOutcome(s).Ok? <==> forall k :: 0 <= k < |ChainRules()| ==> !ChainRules()[k].violated(s)
    ensures forall k :: FirstViolated(ChainRules(), s, k) ==> ChainOutcome(s) == Panic(ChainRules()[k].message)
  {
    ChainOutcomeFollowsRules(s);
    forall k | FirstViolated(ChainRules(), s, k)
      ensures ChainOutcome(s) == Panic(ChainRules()[k].message)
    {
      CheckReportsFirst(ChainRules(), s, k);
    }
  }

  // ---------------------------------------------------------------- confirmation depth and idempotence

  /** After a successful chain validation the depth is at least the default
      and at least what was configured, and nothing else has changed. */
  lemma ValidatedConfirmNum(s: ChainFields)
    requires ChainOutcome(s).Ok?
    ensures ChainAfter(s).ascConfirmNum >= DefaultConfirmNum
    ensures ChainAfter(s).ascConfirmNum >= s.ascConfirmNum
    ensures ChainAfter(s) == s.(ascConfirmNum := Max(s.ascConfirmNum, DefaultConfirmNum))
  {
  }

  /** The depth is raised before the later checks run, so it stays raised
      when one of them fails. */
  lemma RaisedConfirmNumSurvivesLaterFailure(s: ChainFields)
    requires ChainPreliminary(s).Ok? && ChainLater(s).Panic?
    ensures ChainOutcome(s) == ChainLater(s)
    ensures ChainAfter(s).ascConfirmNum == Max(s.ascConfirmNum, DefaultConfirmNum)
  {
  }

  /** Validating a chain configuration a second time reports the same
      outcome and changes nothing more. */
  lemma ChainValidateIdempotent(s: ChainFields)
    ensures ChainOutcome(ChainAfter(s)) == ChainOutcome(s)
    ensures ChainAfter(ChainAfter(s)) == ChainAfter(s)
  {
    var t := ChainAfter(s);
    assert ChainPreliminary(t) == ChainPreliminary(s);
    assert ChainLater(t) == ChainLater(s) by {
      ChainLaterIgnoresConfirmNum(s, t.ascConfirmNum);
    }
  }

  /** None of the checks after the depth is raised looks at the depth. */
  lemma ChainLaterIgnoresConfirmNum(s: ChainFields, n: int64)
    ensures ChainLater(s.(ascConfirmNum := n)) == ChainLater(s)
  {
  }

  /** The same holds of the whole configuration. */
  lemma ConfigValidateIdempotent(v: ConfigView)
    ensures ConfigOutcome(ConfigAfter(v)) == ConfigOutcome(v)
    ensures ConfigAfter(ConfigAfter(v)) == ConfigAfter(v)
  {
    ChainValidateIdempotent(v.chain);
  }

  // ---------------------------------------------------------------- fields that are never checked

  lemma AlertChannelsUnchecked(a: AlertConfig, botId: string, chatId: string, token: string)
    ensures ValidateAlertConfig(a.(telegramBotId := botId, telegramChatId := chatId, pagerDutyAuthToken := token))
         == ValidateAlertConfig(a)
  {
  }

  lemma LogLevelAndRetentionUnchecked(l: LogConfig, level: string, maxAge: int64, console: bool, compress: bool)
    ensures ValidateLogConfig(l.(level := level, maxAgeToRetainLogFilesInDays := maxAge,
                                 useConsoleLogger := console, compress := compress))
         == ValidateLogConfig(l)
  {
  }

  lemma ChainIdUnchecked(s: ChainFields, id: uint16)
    ensures ChainOutcome(s.(ascChainId := id)) == ChainOutcome(s)
  {
  }

  /** `Config.Validate` never looks at the admin section. */
  lemma AdminUnchecked(v: ConfigView, admin: AdminConfig)
    ensures ConfigOutcome(v.(admin := admin)) == ConfigOutcome(v)
    ensures ConfigAfter(v.(admin := admin)) == ConfigAfter(v).(admin := admin)
  {
  }
}
