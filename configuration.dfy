/**
 * DatabaseConfiguration: the immutable connection settings record, its static
 * factories, the pool-settings copy, field-wise equality and the `%prefix%`
 * substitution every executor applies to its final SQL text.
 */
module Configuration {
  import opened Wrappers
  import opened Text

  /** The three supported dialects. */
  datatype DatabaseType = MySql | MariaDb | Sqlite

  /** The placeholder that stands for the configured table prefix in table names. */
  const PrefixToken: string := "%prefix%"

  /** The port the factories without a port argument use. */
  const DefaultPort: int := 3306

  /** The ten fields; a Java null reference is None. */
  datatype DatabaseConfiguration = DatabaseConfiguration(
    tablePrefix: Option<string>,
    user: Option<string>,
    password: Option<string>,
    port: int,
    host: Option<string>,
    database: Option<string>,
    debug: bool,
    databaseType: DatabaseType,
    maximumPoolSize: Option<int>,
    minimumIdle: Option<int>)

  /** The eight-argument constructor: no pool settings. */
  function NewConfiguration(tablePrefix: Option<string>, user: Option<string>, password: Option<string>, port: int,
                            host: Option<string>, database: Option<string>, debug: bool,
                            databaseType: DatabaseType): (r: DatabaseConfiguration)
    ensures r.maximumPoolSize.None? && r.minimumIdle.None?
    ensures r.tablePrefix == tablePrefix && r.port == port && r.databaseType == databaseType && r.debug == debug
    ensures r.user == user && r.password == password && r.host == host && r.database == database
  {
    DatabaseConfiguration(tablePrefix, user, password, port, host, database, debug, databaseType, None, None)
  }

  /** A prefix usable by the literal model of replaceAll: no regex replacement metacharacter. */
  predicate LiteralPrefix(prefix: string)
  {
    '$' !in prefix && '\\' !in prefix
  }

  /**
   * replacePrefix: the text unchanged when there is no prefix, otherwise every
   * `%prefix%` replaced by the prefix.
   */
  function ReplacePrefix(config: DatabaseConfiguration, text: string): (r: string)
    requires config.tablePrefix.Some? ==> LiteralPrefix(config.tablePrefix.value)
    ensures config.tablePrefix.None? ==> r == text
    ensures !Occurs(text, PrefixToken) ==> r == text
  {
    match config.tablePrefix
    case None => text
    case Some(prefix) =>
      ReplaceAllWithoutOccurrenceIfAbsent(text, prefix);
      ReplaceAll(text, PrefixToken, prefix)
  }

  lemma ReplaceAllWithoutOccurrenceIfAbsent(text: string, prefix: string)
    ensures !Occurs(text, PrefixToken) ==> ReplaceAll(text, PrefixToken, prefix) == text
  {
    if !Occurs(text, PrefixToken) {
      ReplaceAllWithoutOccurrence(text, PrefixToken, prefix);
    }
  }

  /** A configuration the substitution can be applied to. */
  predicate Substitutable(config: DatabaseConfiguration)
  {
    config.tablePrefix.Some? ==> LiteralPrefix(config.tablePrefix.value)
  }

  /** The substitution with the prefix `p` rewrites `%prefix%users` to `p` followed by `users`. */
  lemma ReplacePrefixOfTableName(config: DatabaseConfiguration, table: string)
    requires config.tablePrefix.Some? && LiteralPrefix(config.tablePrefix.value)
    requires !Occurs(table, PrefixToken)
    ensures ReplacePrefix(config, PrefixToken + table) == config.tablePrefix.value + table
  {
    var s := PrefixToken + table;
    assert s[..|PrefixToken|] == PrefixToken;
    assert s[|PrefixToken|..] == table;
    ReplaceAllWithoutOccurrence(table, PrefixToken, config.tablePrefix.value);
  }

  /** The substitution neither adds nor removes a character absent from the prefix: placeholders survive it. */
  lemma ReplacePrefixKeepsCount(config: DatabaseConfiguration, text: string, ch: char)
    requires Substitutable(config)
    requires ch !in PrefixToken
    requires config.tablePrefix.Some? ==> ch !in config.tablePrefix.value
    ensures Count(ReplacePrefix(config, text), ch) == Count(text, ch)
  {
    if config.tablePrefix.Some? {
      ReplaceAllKeepsCount(text, PrefixToken, config.tablePrefix.value, ch);
    }
  }

  /** The substitution works on both sides of a character that is not part of `%prefix%` independently. */
  lemma ReplacePrefixSplits(config: DatabaseConfiguration, x: string, ch: char, y: string)
    requires Substitutable(config)
    requires ch !in PrefixToken
    ensures ReplacePrefix(config, x + [ch] + y) == ReplacePrefix(config, x) + [ch] + ReplacePrefix(config, y)
  {
    if config.tablePrefix.Some? {
      ReplaceAllSplits(x, ch, y, PrefixToken, config.tablePrefix.value);
    }
  }

  /** create(user, password, port, host, database, type) */
  function Create(user: string, password: string, port: int, host: string, database: string,
                  databaseType: DatabaseType): (r: DatabaseConfiguration)
    ensures r.tablePrefix == Some("") && !r.debug && r.databaseType == databaseType && r.port == port
    ensures r.user == Some(user) && r.password == Some(password) && r.host == Some(host) && r.database == Some(database)
    ensures r.maximumPoolSize.None? && r.minimumIdle.None?
  {
    NewConfiguration(Some(""), Some(user), Some(password), port, Some(host), Some(database), false, databaseType)
  }

  /** create(user, password, port, host, database): MySQL by default. */
  function CreateMySql(user: string, password: string, port: int, host: string, database: string): (r: DatabaseConfiguration)
    ensures r.tablePrefix == Some("") && !r.debug && r.databaseType == MySql && r.port == port
    ensures r.user == Some(user) && r.password == Some(password) && r.host == Some(host) && r.database == Some(database)
  {
    NewConfiguration(Some(""), Some(user), Some(password), port, Some(host), Some(database), false, MySql)
  }

  /** createMariaDb(user, password, port, host, database) */
  function CreateMariaDb(user: string, password: string, port: int, host: string, database: string): (r: DatabaseConfiguration)
    ensures r.tablePrefix == Some("") && !r.debug && r.databaseType == MariaDb && r.port == port
    ensures r.user == Some(user) && r.password == Some(password) && r.host == Some(host) && r.database == Some(database)
  {
    NewConfiguration(Some(""), Some(user), Some(password), port, Some(host), Some(database), false, MariaDb)
  }

  /** create(user, password, port, host, database, debug): MySQL. */
  function CreateMySqlDebug(user: string, password: string, port: int, host: string, database: string,
                            debug: bool): (r: DatabaseConfiguration)
    ensures r.tablePrefix == Some("") && r.debug == debug && r.databaseType == MySql && r.port == port
    ensures r.user == Some(user) && r.password == Some(password) && r.host == Some(host) && r.database == Some(database)
  {
    NewConfiguration(Some(""), Some(user), Some(password), port, Some(host), Some(database), debug, MySql)
  }

  /** createMariaDb(user, password, port, host, database, debug) */
  function CreateMariaDbDebug(user: string, password: string, port: int, host: string, database: string,
                              debug: bool): (r: DatabaseConfiguration)
    ensures r.tablePrefix == Some("") && r.debug == debug && r.databaseType == MariaDb && r.port == port
    ensures r.user == Some(user) && r.password == Some(password) && r.host == Some(host) && r.database == Some(database)
  {
    NewConfiguration(Some(""), Some(user), Some(password), port, Some(host), Some(database), debug, MariaDb)
  }

  /** create(user, password, host, database, type): the default port. */
  function CreateDefaultPort(user: string, password: string, host: string, database: string,
                             databaseType: DatabaseType): (r: DatabaseConfiguration)
    ensures r.tablePrefix == Some("") && !r.debug && r.databaseType == databaseType && r.port == 3306
    ensures r.user == Some(user) && r.password == Some(password) && r.host == Some(host) && r.database == Some(database)
  {
    NewConfiguration(Some(""), Some(user), Some(password), DefaultPort, Some(host), Some(database), false, databaseType)
  }

  /** create(user, password, port, host, database, debug, type) */
  function CreateFull(user: string, password: string, port: int, host: string, database: string, debug: bool,
                      databaseType: DatabaseType): (r: DatabaseConfiguration)
    ensures r.tablePrefix == Some("") && r.debug == debug && r.databaseType == databaseType && r.port == port
    ensures r.user == Some(user) && r.password == Some(password) && r.host == Some(host) && r.database == Some(database)
  {
    NewConfiguration(Some(""), Some(user), Some(password), port, Some(host), Some(database), debug, databaseType)
  }

  /** createMariaDb(user, password, host, database): the default port. */
  function CreateMariaDbDefaultPort(user: string, password: string, host: string, database: string): (r: DatabaseConfiguration)
    ensures r.tablePrefix == Some("") && !r.debug && r.databaseType == MariaDb && r.port == 3306
    ensures r.user == Some(user) && r.password == Some(password) && r.host == Some(host) && r.database == Some(database)
  {
    NewConfiguration(Some(""), Some(user), Some(password), DefaultPort, Some(host), Some(database), false, MariaDb)
  }

  /** sqlite(debug): no credentials, no host, no database, port 0. */
  function SqliteConfiguration(debug: bool): (r: DatabaseConfiguration)
    ensures r.tablePrefix == Some("") && r.debug == debug && r.databaseType == Sqlite && r.port == 0
    ensures r.user.None? && r.password.None? && r.host.None? && r.database.None?
  {
    NewConfiguration(Some(""), None, None, 0, None, None, debug, Sqlite)
  }

  /** The empty prefix every factory installs makes the substitution delete `%prefix%`. */
  lemma FactoryPrefixDeletesToken(config: DatabaseConfiguration, table: string)
    requires config.tablePrefix == Some("")
    requires !Occurs(table, PrefixToken)
    ensures ReplacePrefix(config, PrefixToken + table) == table
  {
    ReplacePrefixOfTableName(config, table);
  }

  /** withPoolSettings: a copy whose two pool fields are replaced. */
  function WithPoolSettings(config: DatabaseConfiguration, maximumPoolSize: Option<int>,
                            minimumIdle: Option<int>): (r: DatabaseConfiguration)
    ensures r.maximumPoolSize == maximumPoolSize && r.minimumIdle == minimumIdle
    ensures r.(maximumPoolSize := config.maximumPoolSize, minimumIdle := config.minimumIdle) == config
  {
    DatabaseConfiguration(config.tablePrefix, config.user, config.password, config.port, config.host,
                          config.database, config.debug, config.databaseType, maximumPoolSize, minimumIdle)
  }

  /** equals: the ten fields compared one by one. */
  predicate Equals(a: DatabaseConfiguration, b: DatabaseConfiguration)
  {
    a.port == b.port && a.debug == b.debug && a.tablePrefix == b.tablePrefix && a.user == b.user
    && a.password == b.password && a.host == b.host && a.database == b.database
    && a.databaseType == b.databaseType && a.maximumPoolSize == b.maximumPoolSize && a.minimumIdle == b.minimumIdle
  }

  /** Field-wise equality is exactly equality of the records. */
  lemma EqualsIsValueEquality(a: DatabaseConfiguration, b: DatabaseConfiguration)
    ensures Equals(a, b) <==> a == b
  {
  }
}
