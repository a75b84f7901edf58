/** Constants of the relayer's `common` package that the configuration
    validators compare against. The package itself is not part of this
    model: the dialect names are the ones the configuration tests and the
    test fixture use, and the default confirmation depth is left abstract,
    so every property proved here holds whatever its value is. */
module Common {
  import opened GoTypes

  const DBDialectMysql: string := "mysql"
  const DBDialectSqlite3: string := "sqlite3"

  /** The smallest confirmation depth the relayer runs with. */
  const DefaultConfirmNum: int64
}
