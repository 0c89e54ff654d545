/** Checking an uploaded CSV's columns against the Firefly III Data Importer
    configuration recommended for its bank: the number of columns the
    configuration's `roles` list expects, the extra or missing columns, and the
    normalised column list that drops extras or pads with placeholders. The
    configuration directory is given as the files it holds, each already
    parsed. */
module ImportConfigValidator {
  import opened Common
  import opened Strings

  /** A parsed import configuration; `roles` is None when the key is absent. */
  datatype Config = Config(roles: Option<seq<string>>)

  /** The validator: its configuration directory and the files found there. */
  datatype Validator = Validator(configDir: string, files: map<string, Config>)

  /** `BANK_CONFIG_MAP`: the recommended configuration file per bank type. */
  const BankConfigMap: map<string, string> := map[
    "Revolut" := "Revolut_Personal_import_config_v4.json",
    "Revolut Credit Card" := "Revolut_CC_import_config_v3.json",
    "T212" := "T212_All_import_config_v6.json",
    "AIB" := "AIB_import_config_v2.json"
  ]

  /** `config_dir / filename`. */
  function JoinPath(dir: string, filename: string): string {
    dir + "/" + filename
  }

  /** `get_config_path`: the path of the bank's configuration, or None when the
      bank type has no entry or its file is not in the directory. */
  function GetConfigPath(v: Validator, bankType: string): (r: Option<string>)
    ensures r.Some? <==> bankType in BankConfigMap && BankConfigMap[bankType] in v.files
    ensures r.Some? ==> r.value == JoinPath(v.configDir, BankConfigMap[bankType])
  {
    if bankType !in BankConfigMap || BankConfigMap[bankType] == "" then None
    else
      var path := JoinPath(v.configDir, BankConfigMap[bankType]);
      if BankConfigMap[bankType] in v.files then Some(path) else None
  }

  /** `get_column_roles`: the `roles` list, empty when absent. */
  function GetColumnRoles(config: Config): (roles: seq<string>)
    ensures config.roles.None? ==> roles == []
    ensures config.roles.Some? ==> roles == config.roles.value
  {
    config.roles.GetOr([])
  }

  /** `get_expected_column_count`: one column per role. */
  function GetExpectedColumnCount(config: Config): (n: nat)
    ensures n == |GetColumnRoles(config)|
    ensures config.roles.None? ==> n == 0
  {
    |config.roles.GetOr([])|
  }

  /** The `validation_info` dictionary, in its two shapes. */
  datatype ValidationInfo =
    | NoConfig(error: string, actualColumns: nat)
    | Checked(configFile: string, configPath: string, expectedColumns: nat, actualColumns: nat,
              columnRoles: seq<string>, isMatch: bool, extraColumns: seq<string>, missingCount: nat,
              csvColumns: seq<string>)

  /** `validate_csv_structure`: whether the column count matches, and the details. */
  function ValidateCsvStructure(v: Validator, csvColumns: seq<string>, bankType: string): (r: (bool, ValidationInfo))
    ensures GetConfigPath(v, bankType).None? ==>
      && !r.0
      && r.1 == NoConfig("No import config found for " + bankType, |csvColumns|)
    ensures GetConfigPath(v, bankType).Some? ==>
      var config := v.files[BankConfigMap[bankType]];
      var expected := |GetColumnRoles(config)|;
      && r.1.Checked?
      && r.1.configFile == BankConfigMap[bankType]
      && r.1.configPath == GetConfigPath(v, bankType).value
      && r.1.expectedColumns == expected
      && r.1.actualColumns == |csvColumns|
      && r.1.columnRoles == GetColumnRoles(config)
      && r.1.csvColumns == csvColumns
      && (r.0 <==> expected == |csvColumns|)
      && r.1.isMatch == r.0
      && (|csvColumns| > expected ==> r.1.extraColumns == csvColumns[expected..] && r.1.missingCount == 0)
      && (|csvColumns| < expected ==> r.1.extraColumns == [] && r.1.missingCount == expected - |csvColumns|)
      && (|csvColumns| == expected ==> r.1.extraColumns == [] && r.1.missingCount == 0)
  {
    var configPath := GetConfigPath(v, bankType);
    if configPath.None? then
      (false, NoConfig("No import config found for " + bankType, |csvColumns|))
    else
      var config := v.files[BankConfigMap[bankType]];
      var expectedCount := GetExpectedColumnCount(config);
      var actualCount := |csvColumns|;
      var columnRoles := GetColumnRoles(config);
      var isMatch := expectedCount == actualCount;
      var extraColumns := if actualCount > expectedCount then csvColumns[expectedCount..] else [];
      var missingCount := if actualCount < expectedCount then expectedCount - actualCount else 0;
      (isMatch, Checked(BankConfigMap[bankType], configPath.value, expectedCount, actualCount, columnRoles,
                        isMatch, extraColumns, missingCount, csvColumns))
  }

  /** Exactly one of three outcomes: the counts match, there are extra columns,
      or some are missing. */
  lemma ExactlyOneOutcome(v: Validator, csvColumns: seq<string>, bankType: string)
    requires GetConfigPath(v, bankType).Some?
    ensures var info := ValidateCsvStructure(v, csvColumns, bankType).1;
      && info.Checked?
      && (info.isMatch <==> (info.extraColumns == [] && info.missingCount == 0))
      && !(info.extraColumns != [] && info.missingCount > 0)
      && |info.extraColumns| + info.expectedColumns == info.actualColumns + info.missingCount
  {
  }

  const NoNormalizationNeeded := "No normalization needed - columns match exactly"

  /** `_placeholder_<k>`. */
  function Placeholder(k: nat): string {
    "_placeholder_" + DecimalString(k)
  }

  /** Placeholders for different positions have different names. */
  lemma PlaceholdersDistinct(j: nat, k: nat)
    requires j != k
    ensures Placeholder(j) != Placeholder(k)
  {
    DecimalStringInjective(j, k);
    assert Placeholder(j)[13..] == DecimalString(j);
    assert Placeholder(k)[13..] == DecimalString(k);
  }

  function ExtraColumnsPart(extra: seq<string>): string {
    "Removed " + DecimalString(|extra|) + " extra column(s): " + Join(extra, ", ")
  }

  function PlaceholdersPart(missing: nat): string {
    "Added " + DecimalString(missing) + " placeholder column(s)"
  }

  /** `get_normalized_columns`: the columns unchanged, with the reason, when there
      is no configuration or the counts match; otherwise the first `expected`
      columns followed by numbered placeholders, so that the result always has
      the expected length and validates as a match. */
  method GetNormalizedColumns(v: Validator, csvColumns: seq<string>, bankType: string)
    returns (normalized: seq<string>, summary: string)
    ensures var info := ValidateCsvStructure(v, csvColumns, bankType).1;
      && (info.NoConfig? ==> normalized == csvColumns && summary == info.error)
      && (info.Checked? && info.isMatch ==> normalized == csvColumns && summary == NoNormalizationNeeded)
      && (info.Checked? ==>
            && |normalized| == info.expectedColumns
            && ValidateCsvStructure(v, normalized, bankType).0
            && (forall i :: 0 <= i < |normalized| && i < |csvColumns| ==> normalized[i] == csvColumns[i])
            && (forall i :: |csvColumns| <= i < |normalized| ==> normalized[i] == Placeholder(i - |csvColumns| + 1)))
      && (info.Checked? && info.extraColumns != [] ==> summary == ExtraColumnsPart(info.extraColumns))
      && (info.Checked? && info.missingCount > 0 ==> summary == PlaceholdersPart(info.missingCount))
  {
    var (_, info) := ValidateCsvStructure(v, csvColumns, bankType);
    if info.NoConfig? {
      return csvColumns, info.error;
    }
    if info.isMatch {
      return csvColumns, NoNormalizationNeeded;
    }
    var expectedCount := info.expectedColumns;
    normalized := if expectedCount <= |csvColumns| then csvColumns[..expectedCount] else csvColumns;
    var summaryParts: seq<string> := [];
    if info.extraColumns != [] {
      summaryParts := summaryParts + [ExtraColumnsPart(info.extraColumns)];
    }
    if info.missingCount > 0 {
      normalized := AppendPlaceholders(normalized, info.missingCount);
      summaryParts := summaryParts + [PlaceholdersPart(info.missingCount)];
    }
    summary := Join(summaryParts, " | ");
    assert ValidateCsvStructure(v, normalized, bankType).0 by {
      ExpectedCountMatches(v, normalized, bankType);
    }
  }

  /** The padding loop: `_placeholder_1`, `_placeholder_2`, ... appended after
      the given columns. */
  method AppendPlaceholders(columns: seq<string>, missing: nat) returns (padded: seq<string>)
    ensures |padded| == |columns| + missing
    ensures padded[..|columns|] == columns
    ensures forall j :: |columns| <= j < |padded| ==> padded[j] == Placeholder(j - |columns| + 1)
  {
    padded := columns;
    var i := 0;
    while i < missing
      invariant 0 <= i <= missing
      invariant |padded| == |columns| + i
      invariant padded[..|columns|] == columns
      invariant forall j :: |columns| <= j < |padded| ==> padded[j] == Placeholder(j - |columns| + 1)
    {
      padded := padded + [Placeholder(i + 1)];
      i := i + 1;
    }
  }

  /** Columns of the length the configuration expects validate as a match. */
  lemma ExpectedCountMatches(v: Validator, columns: seq<string>, bankType: string)
    requires GetConfigPath(v, bankType).Some?
    requires |columns| == |GetColumnRoles(v.files[BankConfigMap[bankType]])|
    ensures ValidateCsvStructure(v, columns, bankType).0
  {
  }
}
