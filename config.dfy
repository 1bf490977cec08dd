/** The settings the core reads. Environment loading is not modelled: the
    settings are a value handed to the services. */
module Config {

  datatype Settings = Settings(
    maxTextLength: int,
    allowedExtensions: seq<string>,
    excludedExtensions: seq<string>)

  /** The defaults the settings class declares. */
  const DefaultSettings: Settings := Settings(
    15000,
    [".txt", ".csv", ".xlsx", ".xls", ".docx"],
    [".json", ".pdf"])
}
