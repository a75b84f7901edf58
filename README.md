# Oracle relayer: configuration validation

This project models the start-up validation of the oracle relayer's
configuration (package `util`, `util/config.go`). The relayer reads a JSON
configuration with five sections: database, chain, log, alert and admin.
Before anything starts, `Config.Validate` checks the database, chain, log
and alert sections, in that order. Each section's validator runs a fixed,
ordered list of field checks and panics with a fixed message on the first
one that fails. `ChainConfig.Validate` also changes the configuration: after
its first three checks pass, it raises the source chain's confirmation depth
(`ASCConfirmNum`) to at least `DefaultConfirmNum`, before running its
remaining checks.

How it is modelled:

- A Go `panic(msg)` is the value `Panic(msg)` of `Checks.Outcome`. The
  message is the source's own text.
- The database, log, alert and admin sections are values (`datatype`).
  Their validators are functions written as the same chain of guards as
  the source.
- `ChainConfig` is a class with the source's fields. Its `Validate` method
  changes `ascConfirmNum` in place. It is proved against two functions on a
  snapshot of the fields: `ChainOutcome` gives the result and `ChainAfter`
  gives the new state.
- `Config` holds the chain section by reference, so `ValidateConfig`
  modifies that object. `ConfigOutcome` and `ConfigAfter` specify it.
- As a reference for every validator, each section's requirements are also
  written as an ordered rule table (`ConfigRules`). A generic `Checks.Check`
  runs a table and stops at the first rule that is violated. Lemmas prove
  that each hand-written validator is exactly `Check` on its table. The
  ordering properties follow from that: which failure is reported, and that
  a result is `Ok` exactly when no rule is violated.
- Go's `int64`, `uint16` and `byte` are newtypes. The contract address is
  20 bytes, compared through its textual form as the source does. A lemma
  shows that comparing the textual forms compares the bytes.
- The `common` package is not part of this model. Its dialect names are
  `"mysql"` and `"sqlite3"`, the values the tests and the fixture use.
  `DefaultConfirmNum` is an abstract `int64` constant, so every property
  holds for any value of it.
- `util/config_test.go` is stated as lemmas (`ConfigTests`). Each rejected
  case also pins down the exact message it reports. The shared JSON fixture
  of `util/test_util.go` would itself be rejected by `Config.Validate`. It
  selects the `mnemonic` key type with an empty mnemonic, and it leaves the
  package-delay alert threshold at zero. `ConfigTests.FixtureRejected`
  states this. `PrepareDB` reads only the database section of a
  configuration, and no file in the modelled source validates the fixture,
  so this is a note, not a defect of the validators. In the same way, the two alert
  test cases that set a threshold to 0 also leave the moniker empty, so
  both are rejected by the moniker check and never reach the threshold
  checks (`ConfigTests.AlertConfigCases`).

Files: `go_types.dfy` (Go scalar types and the address),
`common.dfy` (constants of the `common` package), `checks.dfy` (outcomes and
ordered rule lists), `util.dfy` (the model of `util/config.go`),
`config_rules.dfy` (rule tables and the properties), `config_tests.dfy` (the
test tables and the fixture).

## Model

| member | source | states |
|---|---|---|
| `Util.ValidateAlertConfig` | util/config.go:45-57 | fails exactly when the moniker is empty, `BlockUpdateTimeOut` <= 0 or `PackageDelayAlertThreshold` <= 0; an empty moniker is reported first |
| `Util.ValidateDBConfig` | util/config.go:64-71 | succeeds exactly when the dialect is "mysql" or "sqlite3" and the path is non-empty; a bad dialect is reported whatever the path |
| `Util.ValidateLogConfig` | util/config.go:142-154 | never fails without a file logger; with one, succeeds exactly when the file name is non-empty and size and backup count are positive |
| `Util.ChainPreliminary` | util/config.go:90-98 | the three checks before the depth is raised pass exactly when start height >= 0, providers non-empty and confirm number > 0 |
| `Util.KeySourceCheck` | util/config.go:113-124 | the key checks pass exactly when the key type is "aws_mnemonic" with region and secret name set, or "mnemonic" with a mnemonic set |
| `Util.ChainLater` | util/config.go:105-128 | the checks after the raise pass exactly when the contract address is non-zero, RPC addresses are non-empty, the key source is complete and the relay interval is positive |
| `Util.ChainOutcome` | util/config.go:89-129 | chain validation succeeds exactly when both groups of checks pass; a negative start height is always what is reported |
| `Util.ChainAfter` | util/config.go:100-103 | only `ascConfirmNum` can change; once the first three checks pass it becomes max(original, `DefaultConfirmNum`), otherwise nothing changes |
| `Util.ChainConfig.constructor` | util/config.go:73-87 | the object holds exactly the given field values |
| `Util.ChainConfig.Validate` | util/config.go:89-129 | returns `ChainOutcome` of the old fields and leaves the fields at `ChainAfter` of the old ones; on success the depth is >= the default and >= its old value |
| `Util.ConfigOutcome` | util/config.go:26-31 | the whole configuration is valid exactly when the database, chain, log and alert validators all succeed; otherwise the failure reported is the database one if any, else the chain one, else the log one, else the alert one |
| `Util.ConfigAfter` | util/config.go:26-31 | only the chain section can change: it becomes `ChainAfter` of the old one when the database section passes, and nothing changes when the database section fails first |
| `Util.ValidateConfig` | util/config.go:26-31 | returns `ConfigOutcome` of the old configuration and leaves it at `ConfigAfter` of the old one |
| `GoTypes.AddressStringInjective` | util/config.go:105-108 | two addresses have the same textual form exactly when they are equal, so the guard rejects exactly the zero address |
| `Checks.Check` | util/config.go:89-129 | an ordered rule list passes exactly when no rule is violated; a panic carries the message of a first violated rule |
| `Checks.CheckReportsFirst` | util/config.go:89-129 | when rule k is the first violated one, its message is the one reported |
| `Checks.CheckAppend` | util/config.go:96-105 | running two rule lists in sequence is running their concatenation, as the chain checks run before and after the raise |
| `ConfigRules.AlertFollowsRules` | util/config.go:45-57 | the alert validator is the first-violation check of the alert rule table |
| `ConfigRules.DBFollowsRules` | util/config.go:64-71 | the database validator is the first-violation check of its table (dialect, then path) |
| `ConfigRules.LogFollowsRules` | util/config.go:142-154 | the log validator is the first-violation check of its table (file name, size, backups, each only for a file logger) |
| `ConfigRules.ChainPreliminaryFollowsRules` | util/config.go:90-98 | the first three chain checks are the first-violation check of their table |
| `ConfigRules.KeySourceFollowsRules` | util/config.go:113-124 | the key checks are the first-violation check of their table (type, region, secret name, mnemonic) |
| `ConfigRules.ChainLaterFollowsRules` | util/config.go:105-128 | the later chain checks are the first-violation check of their table |
| `ConfigRules.ChainOutcomeFollowsRules` | util/config.go:89-129 | chain validation is the first-violation check of the full ten-rule chain table |
| `ConfigRules.AlertReportsFirstViolation` | util/config.go:45-57 | alert validation passes exactly when no alert rule is violated and otherwise reports the first violated rule |
| `ConfigRules.DBReportsFirstViolation` | util/config.go:64-71 | database validation passes exactly when no rule is violated and otherwise reports the first, so a bad dialect comes before an empty path |
| `ConfigRules.LogReportsFirstViolation` | util/config.go:142-154 | log validation passes exactly when no rule is violated and otherwise reports the first violated rule |
| `ConfigRules.ChainReportsFirstViolation` | util/config.go:89-129 | chain validation runs its ten checks in the source's order and reports the first that fails |
| `ConfigRules.ValidatedConfirmNum` | util/config.go:100-103 | after a successful chain validation the depth is >= `DefaultConfirmNum` and >= the configured value, and no other field changed |
| `ConfigRules.RaisedConfirmNumSurvivesLaterFailure` | util/config.go:100-128 | when a check after the raise fails, the raised depth remains |
| `ConfigRules.ChainValidateIdempotent` | util/config.go:100-103 | validating the chain section again reports the same outcome and changes nothing more |
| `ConfigRules.ChainLaterIgnoresConfirmNum` | util/config.go:105-128 | none of the checks after the raise reads the depth |
| `ConfigRules.ConfigValidateIdempotent` | util/config.go:26-31 | validating the whole configuration again reports the same outcome and changes nothing more |
| `ConfigRules.AlertChannelsUnchecked` | util/config.go:33-57 | the Telegram and PagerDuty settings never affect alert validation |
| `ConfigRules.LogLevelAndRetentionUnchecked` | util/config.go:131-154 | level, retention age, console logging and compression never affect log validation |
| `ConfigRules.ChainIdUnchecked` | util/config.go:73-129 | the chain id never affects chain validation |
| `ConfigRules.AdminUnchecked` | util/config.go:26-31 | the admin section never affects the outcome or the resulting configuration |
| `ConfigTests.AlertConfigCases` | util/config_test.go:11-48 | all three rejected alert cases report the empty moniker, because the two threshold cases also leave the moniker empty; the complete case passes |
| `ConfigTests.DBConfigCases` | util/config_test.go:50-82 | "wrong" is rejected for its dialect, "mysql" with an empty path for the path, "mysql" with a path passes |
| `ConfigTests.ChainConfigCasesBeforeKeySource` | util/config_test.go:84-123 | the first five chain cases report start height, providers, confirm number, contract address and key type, in that order |
| `ConfigTests.ChainConfigCasesKeySource` | util/config_test.go:124-192 | the remaining chain cases report key type, AWS region, AWS secret name, mnemonic and relay interval, and the complete one passes |
| `ConfigTests.LogConfigCases` | util/config_test.go:204-240 | the three file-logger cases report file name, size and backups |
| `ConfigTests.ChainConfigObjectScenario` | util/config_test.go:180-191 | the passing chain case run through the object: validation succeeds, raises a depth of 1 to max(1, `DefaultConfirmNum`) and changes nothing else; a second run succeeds and changes nothing |
| `ConfigTests.FixtureRejected` | util/test_util.go:11-51 | the fixture configuration is rejected with the empty-mnemonic message, and its alert section alone would fail on the package-delay threshold |

## Left out

- `ParseConfigFromFile` and `ParseConfigFromJson` (util/config.go:160-181): file reading and JSON decoding by a foreign library. Test cases and the fixture are written as already decoded values.
- Nil section pointers in `Config.Validate`: in Go these end in a nil-dereference panic. The model assumes every section is present.
- Pointer aliasing for the database, log, alert and admin sections: `Config.Validate` never writes to them, so they are values here. Only the chain section, which is written, is an object.
- `GoTypes.AddressString`: does not model the EIP-55 checksum capitalisation of `Address.String()`, which needs a Keccak hash. The checksum only changes the case of letters, so which strings compare equal is unchanged.
- The values of the `common` constants: that package is not part of this model. `DefaultConfirmNum` is abstract.
- Go `int` fields of `LogConfig`: modelled as 64-bit, the width on the platforms the relayer is built for.
- The process bootstrap in main.go (flags, secret retrieval, database opening, goroutines), the administrative HTTP server in admin/server.go, the target-chain executor in executor/, and the database setup in util/test_util.go. These are I/O, concurrency and calls into external clients.
- The relay pipeline (chain observer, relay engine, claim store) is not part of this model, because its source files are not among those modelled.
- `util/config_test.go` has no passing case for `LogConfig`. The model adds the matching fact as a property of `ValidateLogConfig`: without a file logger, validation never fails.
