/** The table-driven tests of util/config_test.go, stated as lemmas about
    the validators, with the exact message each rejected case reports, and
    the shared test fixture of util/test_util.go. Fields a test case leaves
    out hold Go's zero value. */
module ConfigTests {
  import opened GoTypes
  import opened Common
  import opened Checks
  import opened Util

  const ZeroAlert := AlertConfig("", "", "", "", 0, 0)
  const ZeroDB := DBConfig("", "")
  const ZeroLog := LogConfig("", "", 0, 0, 0, false, false, false)
  const ZeroChain := ChainFields(0, [], 0, 0, ZeroAddress, [], "", "", "", "", 0)

  /** `ethcmm.Address{1}`: first byte 1, the rest zero. */
  const AddressOne: Address := [1, 0, 0, 0, 0, 0, 0, 0, 0, 0, 0, 0, 0, 0, 0, 0, 0, 0, 0, 0]

  /** The second and third cases also leave the moniker empty, so they are
      rejected by the moniker check, not by the threshold they set to 0. */
  lemma AlertConfigCases()
    ensures ValidateAlertConfig(ZeroAlert.(moniker := "")) == Panic(MonikerEmpty)
    ensures ValidateAlertConfig(ZeroAlert.(blockUpdateTimeOut := 0)) == Panic(MonikerEmpty)
    ensures ValidateAlertConfig(ZeroAlert.(packageDelayAlertThreshold := 0)) == Panic(MonikerEmpty)
    ensures ValidateAlertConfig(ZeroAlert.(moniker := "test", blockUpdateTimeOut := 10, packageDelayAlertThreshold := 10)) == Ok
  {
  }

  lemma DBConfigCases()
    ensures ValidateDBConfig(ZeroDB.(dialect := "wrong")) == Panic(DialectUnsupported)
    ensures ValidateDBConfig(ZeroDB.(dialect := "mysql", dbPath := "")) == Panic(DBPathEmpty)
    ensures ValidateDBConfig(ZeroDB.(dialect := "mysql", dbPath := "path")) == Ok
  {
  }

  /** The fields the later chain cases share: everything up to the key source is valid. */
  const ChainPrefix := ZeroChain.(ascStartHeight := 1, ascProviders := ["provider"], ascConfirmNum := 1,
                                  ascCrossChainContractAddress := AddressOne, afcRpcAddrs := ["rpc addr"])

  /** The chain cases build on each other: each fixes the previous case's
      failure, so together they walk through the checks in order. */
  lemma ChainConfigCasesBeforeKeySource()
    ensures ChainOutcome(ZeroChain.(ascStartHeight := -1)) == Panic(StartHeightNegative)
    ensures ChainOutcome(ZeroChain.(ascStartHeight := 1, ascProviders := [])) == Panic(ProvidersEmpty)
    ensures ChainOutcome(ZeroChain.(ascStartHeight := 1, ascProviders := ["provider"], ascConfirmNum := 0))
         == Panic(ConfirmNumNotPositive)
    ensures ChainOutcome(ZeroChain.(ascStartHeight := 1, ascProviders := ["provider"], ascConfirmNum := 1))
         == Panic(ContractAddressEmpty)
    ensures ChainOutcome(ChainPrefix) == Panic(KeyTypeUnsupported)
  {
    assert AddressOne != ZeroAddress by {
      assert AddressOne[0] != ZeroAddress[0];
    }
    AddressStringInjective(AddressOne, ZeroAddress);
  }

  lemma ChainConfigCasesKeySource()
    ensures ChainOutcome(ChainPrefix.(afcKeyType := "wrong")) == Panic(KeyTypeUnsupported)
    ensures ChainOutcome(ChainPrefix.(afcKeyType := KeyTypeAWSMnemonic, afcAWSRegion := "")) == Panic(AWSRegionEmpty)
    ensures ChainOutcome(ChainPrefix.(afcKeyType := KeyTypeAWSMnemonic, afcAWSRegion := "region", afcAWSSecretName := ""))
         == Panic(AWSSecretNameEmpty)
    ensures ChainOutcome(ChainPrefix.(afcKeyType := KeyTypeMnemonic, afcMnemonic := "")) == Panic(MnemonicEmpty)
    ensures ChainOutcome(ChainPrefix.(afcKeyType := KeyTypeMnemonic, afcMnemonic := "mnemonic", relayInterval := 0))
         == Panic(RelayIntervalNotPositive)
    ensures ChainOutcome(ChainPrefix.(afcKeyType := KeyTypeMnemonic, afcMnemonic := "mnemonic", relayInterval := 1))
         == Ok
  {
    assert AddressOne != ZeroAddress by {
      assert AddressOne[0] != ZeroAddress[0];
    }
    AddressStringInjective(AddressOne, ZeroAddress);
    assert KeySourceComplete(ChainPrefix.(afcKeyType := KeyTypeMnemonic, afcMnemonic := "mnemonic"));
  }

  lemma LogConfigCases()
    ensures ValidateLogConfig(ZeroLog.(useFileLogger := true, filename := "")) == Panic(FilenameEmpty)
    ensures ValidateLogConfig(ZeroLog.(useFileLogger := true, filename := "file", maxFileSizeInMB := 0))
         == Panic(MaxFileSizeNotPositive)
    ensures ValidateLogConfig(ZeroLog.(useFileLogger := true, filename := "file", maxFileSizeInMB := 1,
                                       maxBackupsOfLogFiles := 0))
         == Panic(MaxBackupsNotPositive)
  {
  }

  /** The contract address of the fixture, 0x…1004. */
  const FixtureContract: Address := [0, 0, 0, 0, 0, 0, 0, 0, 0, 0, 0, 0, 0, 0, 0, 0, 0, 0, 0x10, 0x04]

  /** The JSON fixture of util/test_util.go, as decoded. */
  const FixtureConfig := ConfigView(
    DBConfig("sqlite3", "user:password@(host:port)/db_name?charset=utf8&parseTime=True&loc=Local"),
    ChainFields(1, ["asc_provider"], 2, 0, FixtureContract, ["afc_rpc_addr"], "", "mnemonic", "", "", 1000),
    LogConfig("INFO", "", 0, 0, 0, true, false, false),
    AlertConfig("moniker", "your_bot_id", "your_chat_id", "", 60, 0),
    AdminConfig(":8080"))

  /** The fixture is not a valid configuration: it selects mnemonic keys
      with an empty mnemonic (and also leaves the package-delay threshold
      unset, which is not reached because the chain section fails first). */
  lemma FixtureRejected()
    ensures ConfigOutcome(FixtureConfig) == Panic(MnemonicEmpty)
    ensures ValidateAlertConfig(FixtureConfig.alert) == Panic(PackageDelayAlertThresholdNotPositive)
  {
    assert FixtureContract != ZeroAddress by {
      assert FixtureContract[18] != ZeroAddress[18];
    }
    AddressStringInjective(FixtureContract, ZeroAddress);
  }

  /** The last chain case run through the object itself: validation passes,
      raises the depth of 1 to the default, and a second run changes nothing. */
  method ChainConfigObjectScenario() returns (first: Outcome, second: Outcome, depth: int64, again: ChainFields)
    ensures first == Ok && second == Ok
    ensures depth == Max(1, DefaultConfirmNum)
    ensures again == ChainPrefix.(afcKeyType := KeyTypeMnemonic, afcMnemonic := "mnemonic", relayInterval := 1,
                                  ascConfirmNum := Max(1, DefaultConfirmNum))
  {
    var f := ChainPrefix.(afcKeyType := KeyTypeMnemonic, afcMnemonic := "mnemonic", relayInterval := 1);
    ChainConfigCasesKeySource();
    var cfg := new ChainConfig(f);
    first := cfg.Validate();
    depth := cfg.ascConfirmNum;
    second := cfg.Validate();
    again := cfg.Fields();
  }
}
