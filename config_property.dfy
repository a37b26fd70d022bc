/**
 * The collaborators of the crypto-material configuration that live in
 * `ConfigProperty`: the raw crypto-material section, lookup with a default,
 * path normalisation and stream opening.
 */
module ConfigProperty {
  import opened Wrappers

  /**
   * The crypto-material section of the configuration (`getCryptoMaterial()`):
   * a key is configured exactly when it is in the map.
   */
  type Section = map<string, string>

  /** `getValue(section, key, default)`: the configured value of `key`, or `default`. */
  function GetValue(section: Section, key: string, default: Option<string>): Option<string>
  {
    if key in section then Some(section[key]) else default
  }

  /**
   * `getConfigFilePath`: turns a configured value into a file path. Its behaviour
   * is not part of this model, so every operation takes it as a parameter and
   * nothing is assumed about it.
   */
  type PathResolver = Option<string> -> Option<string>

  /**
   * Whatever `getConfigInputStream(source)` returned, null or not: the model
   * identifies the result only by the argument it was asked to open.
   */
  datatype Stream = OpenedOn(source: Option<string>)

  /** `getConfigInputStream`: opens a stream and records the argument it was given. */
  class StreamOpener {
    /** Every argument passed to `Open`, oldest first. */
    var arguments: seq<Option<string>>

    constructor ()
      ensures arguments == []
    {
      arguments := [];
    }

    method Open(value: Option<string>) returns (s: Stream)
      modifies this
      ensures s == OpenedOn(value)
      ensures arguments == old(arguments) + [value]
    {
      arguments := arguments + [value];
      s := OpenedOn(value);
    }
  }
}
