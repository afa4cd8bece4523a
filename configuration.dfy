/** The configuration record `main` builds from the answers and hands to the
    generators and templates. */
module Configuration {
  import opened Common

  /** The `config` object of `main`. The four choices are nullable strings;
      the flags are booleans. `needsDatabase` is kept as JavaScript truthiness. */
  datatype Config = Config(
    projectType: Option<string>,
    frontend: Option<string>,
    backend: Option<string>,
    database: Option<string>,
    useTypeScript: bool,
    needsDatabase: bool,
    addLinting: bool,
    addPrettier: bool,
    initGit: bool)

  /** `answers.database && answers.database !== "none"`, read as a truth value. */
  function NeedsDatabase(database: Option<string>): (b: bool)
    ensures b <==> database.Some? && database.value != "" && database.value != "none"
  {
    Truthy(database) && database.value != "none"
  }
}
