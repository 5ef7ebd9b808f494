/** The part of the linter configuration that the analyzer registry consumes:
    the global enable/disable lists and the per-linter settings that every
    analyzer initializer is handed. */
module Config {

  /** The reserved name that, when it is the only entry of an enable or
      disable list, stands for every registered linter. */
  const Wildcard: string := "*"

  /** The enable/disable request. Both lists may repeat names, name linters
      that do not exist, or hold the wildcard. */
  datatype Linters = Linters(enable: seq<string>, disable: seq<string>)

  /** Settings of the JSON tags linter. */
  datatype JSONTagsConfig = JSONTagsConfig(jsonTagRegex: string)

  /** Settings of the optional-or-required linter. */
  datatype OptionalOrRequiredConfig =
    OptionalOrRequiredConfig(preferredOptionalMarker: string, preferredRequiredMarker: string)

  /** The complete per-linter configuration. The registry never inspects it;
      it passes it unchanged to each initializer it runs. */
  datatype LintersConfig =
    LintersConfig(jsonTags: JSONTagsConfig, optionalOrRequired: OptionalOrRequiredConfig)
}
