/** The process-wide SQL connection settings: four values written together
    by set_config and read back together by get_config. The class variables
    live once per process; here one object stands for that shared namespace. */
module SqlConn {
  import opened Values

  /** (HOST, DATABASE, USER, PASSWORD), in that order. */
  datatype Config = Config(host: Value, database: Value, user: Value, password: Value)

  class SqlConnectionSettings {
    var host: Value
    var database: Value
    var user: Value
    var password: Value

    function Current(): Config
      reads this
    {
      Config(host, database, user, password)
    }

    /** The class body: every setting starts as None. */
    constructor ()
      ensures Current() == Config(Null, Null, Null, Null)
    {
      host, database, user, password := Null, Null, Null, Null;
    }

    /** set_config overwrites all four settings at once. */
    method SetConfig(newHost: Value, newDatabase: Value, newUser: Value, newPassword: Value)
      modifies this
      ensures Current() == Config(newHost, newDatabase, newUser, newPassword)
    {
      host := newHost;
      database := newDatabase;
      user := newUser;
      password := newPassword;
    }

    /** get_config reads the settings without changing them. */
    method GetConfig() returns (c: Config)
      ensures c == Current()
    {
      c := Config(host, database, user, password);
    }
  }

  /** Before any write the settings read back as four Nones; after two
      writes the later one is read back whole, with nothing kept from the
      earlier one. */
  method LastWriteWins(first: Config, second: Config) returns (initial: Config, afterFirst: Config, afterSecond: Config)
    ensures initial == Config(Null, Null, Null, Null)
    ensures afterFirst == first
    ensures afterSecond == second
  {
    var settings := new SqlConnectionSettings();
    initial := settings.GetConfig();
    settings.SetConfig(first.host, first.database, first.user, first.password);
    afterFirst := settings.GetConfig();
    settings.SetConfig(second.host, second.database, second.user, second.password);
    afterSecond := settings.GetConfig();
  }
}
