/** The export section of the server's operations configuration. */
module Configs {

  /**
   * Read-only at request time. `enabled` is the feature toggle; `supportedDestinations`
   * is the case-sensitive allow-list of destination-type identifiers.
   */
  datatype ExportConfiguration = ExportConfiguration(enabled: bool, supportedDestinations: set<string>)
}
