/** The database driver table: which package the backend installs for each
    database choice. */
module Presets {
  import opened Common

  /** One driver entry: the npm package to install and a display name. */
  datatype DriverSpec = DriverSpec(package: string, name: string)

  /** `databaseDrivers`: exactly three keys. */
  const DatabaseDrivers: map<string, DriverSpec> := map[
    "postgresql" := DriverSpec("pg", "PostgreSQL"),
    "mysql" := DriverSpec("mysql2", "MySQL"),
    "sqlite" := DriverSpec("sqlite3", "SQLite")
  ]

  /** `databaseDrivers[database]?.package`: the driver package for a key, or
      nothing when the key has no entry. */
  function DriverPackage(database: string): (r: Option<string>)
    ensures r.Some? <==> database in {"postgresql", "mysql", "sqlite"}
    ensures database == "postgresql" ==> r == Some("pg")
    ensures database == "mysql" ==> r == Some("mysql2")
    ensures database == "sqlite" ==> r == Some("sqlite3")
    ensures r.Some? ==> r.value in {"pg", "mysql2", "sqlite3"}
  {
    if database in DatabaseDrivers then Some(DatabaseDrivers[database].package) else None
  }

  /** The table has exactly the keys postgresql, mysql and sqlite; in
      particular "none" and "" have no entry. */
  lemma DriverTableKeys()
    ensures DatabaseDrivers.Keys == {"postgresql", "mysql", "sqlite"}
    ensures "none" !in DatabaseDrivers && "" !in DatabaseDrivers
  {
  }

  /** Different keys name different packages, so the package identifies the
      database: `pg` is installed only for postgresql. */
  lemma DriverPackagesDistinct(a: string, b: string)
    requires DriverPackage(a).Some? && DriverPackage(a) == DriverPackage(b)
    ensures a == b
  {
  }

  /** The display names of the three entries. */
  lemma DriverDisplayNames()
    ensures DatabaseDrivers["postgresql"].name == "PostgreSQL"
    ensures DatabaseDrivers["mysql"].name == "MySQL"
    ensures DatabaseDrivers["sqlite"].name == "SQLite"
  {
  }
}
