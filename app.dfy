/** The CSV preprocessing page: detecting the bank from the uploaded file's
    columns, the two Revolut rules that drop internal transfer rows, the row
    counts shown afterwards, and the name the processed file is offered under. */
module CsvPreprocessor {
  import opened Common
  import opened Strings

  /** A CSV row: its cell per column. A column with no entry is an empty cell,
      which compares unequal to every string. */
  type CsvRow = map<string, string>

  function Cell(row: CsvRow, column: string): Option<string> {
    if column in row then Some(row[column]) else None
  }

  const RevolutColumns: seq<string> := ["Type", "Product", "Description", "Amount", "Currency"]

  /** Lines 41-43: "Revolut" exactly when every Revolut column is present. */
  function DetectBankType(columns: seq<string>): (bankType: string)
    ensures bankType == "Revolut" <==> forall c :: c in RevolutColumns ==> c in columns
    ensures bankType != "Revolut" ==> bankType == "Unknown"
  {
    if forall c :: c in RevolutColumns ==> c in columns then "Revolut" else "Unknown"
  }

  /** The two Revolut rules. */
  datatype Rule = SavingVaultTopup | FlexibleCashDeposit

  /** The rows a rule's mask selects. */
  predicate Matches(rule: Rule, row: CsvRow) {
    match rule
    case SavingVaultTopup => Cell(row, "Description") == Some("Saving vault topup prefunding wallet")
    case FlexibleCashDeposit =>
      Cell(row, "Product") == Some("Deposit") && Cell(row, "Description") == Some("To Flexible Cash Funds")
  }

  /** `mask.sum()`. */
  function CountMatches(rows: seq<CsvRow>, rule: Rule): (n: nat)
    ensures n <= |rows|
  {
    if rows == [] then 0
    else (if Matches(rule, rows[|rows| - 1]) then 1 else 0) + CountMatches(rows[..|rows| - 1], rule)
  }

  /** `df[~mask]`: the rows the rule does not select, in their order. */
  function Without(rows: seq<CsvRow>, rule: Rule): (kept: seq<CsvRow>)
    ensures |kept| + CountMatches(rows, rule) == |rows|
    ensures forall row :: row in kept <==> row in rows && !Matches(rule, row)
  {
    if rows == [] then []
    else
      var last := rows[|rows| - 1];
      assert rows == rows[..|rows| - 1] + [last];
      Without(rows[..|rows| - 1], rule) + (if Matches(rule, last) then [] else [last])
  }

  /** `xs` is `ys` with some elements left out, the rest in order. */
  predicate IsSubsequence<T(==)>(xs: seq<T>, ys: seq<T>) {
    if xs == [] then true
    else if ys == [] then false
    else if xs[|xs| - 1] == ys[|ys| - 1] then IsSubsequence(xs[..|xs| - 1], ys[..|ys| - 1])
    else IsSubsequence(xs, ys[..|ys| - 1])
  }

  lemma {:induction false} SubsequenceExtend<T>(xs: seq<T>, ys: seq<T>, y: T)
    requires IsSubsequence(xs, ys)
    ensures IsSubsequence(xs, ys + [y])
    decreases |ys|, 1
  {
    var ys' := ys + [y];
    assert ys'[..|ys'| - 1] == ys;
    if xs != [] && xs[|xs| - 1] == y {
      SubsequenceDropLast(xs, ys);
    }
  }

  lemma {:induction false} SubsequenceDropLast<T>(xs: seq<T>, ys: seq<T>)
    requires xs != [] && IsSubsequence(xs, ys)
    ensures IsSubsequence(xs[..|xs| - 1], ys)
    decreases |ys|, 0
  {
    var init := xs[..|xs| - 1];
    if xs[|xs| - 1] == ys[|ys| - 1] {
      if init != [] {
        SubsequenceDropLast(init, ys[..|ys| - 1]);
      }
      SubsequenceExtend(init, ys[..|ys| - 1], ys[|ys| - 1]);
      assert ys[..|ys| - 1] + [ys[|ys| - 1]] == ys;
    } else {
      SubsequenceDropLast(xs, ys[..|ys| - 1]);
      SubsequenceExtend(init, ys[..|ys| - 1], ys[|ys| - 1]);
      assert ys[..|ys| - 1] + [ys[|ys| - 1]] == ys;
    }
  }

  lemma {:induction false} SubsequenceTransitive<T>(xs: seq<T>, ys: seq<T>, zs: seq<T>)
    requires IsSubsequence(xs, ys) && IsSubsequence(ys, zs)
    ensures IsSubsequence(xs, zs)
    decreases |zs|
  {
    if xs != [] && ys != [] {
      var zInit := zs[..|zs| - 1];
      if ys[|ys| - 1] == zs[|zs| - 1] {
        var yInit := ys[..|ys| - 1];
        if xs[|xs| - 1] == ys[|ys| - 1] {
          SubsequenceTransitive(xs[..|xs| - 1], yInit, zInit);
        } else {
          SubsequenceTransitive(xs, yInit, zInit);
        }
      } else {
        SubsequenceTransitive(xs, ys, zInit);
        if xs[|xs| - 1] == zs[|zs| - 1] {
          SubsequenceDropLast(xs, zInit);
        }
      }
    }
  }

  /** Applying a rule keeps the other rows in order, each as often as before,
      and drops every row it selects. */
  lemma WithoutProperties(rows: seq<CsvRow>, rule: Rule)
    ensures IsSubsequence(Without(rows, rule), rows)
    ensures forall row :: multiset(Without(rows, rule))[row] == if Matches(rule, row) then 0 else multiset(rows)[row]
  {
    WithoutSubsequence(rows, rule);
    WithoutCounts(rows, rule);
  }

  lemma {:induction false} WithoutSubsequence(rows: seq<CsvRow>, rule: Rule)
    ensures IsSubsequence(Without(rows, rule), rows)
  {
    if rows != [] {
      var init, last := rows[..|rows| - 1], rows[|rows| - 1];
      WithoutSubsequence(init, rule);
      var kept := Without(init, rule);
      if Matches(rule, last) {
        assert Without(rows, rule) == kept;
        SubsequenceExtend(kept, init, last);
        assert init + [last] == rows;
      } else {
        var kept' := kept + [last];
        assert Without(rows, rule) == kept';
        assert kept'[..|kept'| - 1] == kept;
      }
    }
  }

  lemma {:induction false} WithoutCounts(rows: seq<CsvRow>, rule: Rule)
    ensures forall row :: multiset(Without(rows, rule))[row] == if Matches(rule, row) then 0 else multiset(rows)[row]
  {
    if rows != [] {
      var init, last := rows[..|rows| - 1], rows[|rows| - 1];
      WithoutCounts(init, rule);
      var kept := Without(init, rule);
      SnocMultiset(init, last);
      assert rows == init + [last];
      if Matches(rule, last) {
        assert Without(rows, rule) == kept;
      } else {
        assert Without(rows, rule) == kept + [last];
        SnocMultiset(kept, last);
      }
    }
  }

  /** Appending one element adds it to the multiset. */
  lemma SnocMultiset<T>(s: seq<T>, x: T)
    ensures multiset(s + [x]) == multiset(s) + multiset{x}
  {
  }

  function RuleMessage(rule: Rule, removed: nat): string {
    match rule
    case SavingVaultTopup =>
      "Rule 1: Removed " + DecimalString(removed) + " 'Saving vault topup prefunding wallet' rows"
    case FlexibleCashDeposit =>
      "Rule 2: Removed " + DecimalString(removed) + " 'Deposit' + 'To Flexible Cash Funds' rows"
  }

  /** The figures and rows the page shows after processing. */
  datatype Outcome = Outcome(processed: seq<CsvRow>, appliedRules: seq<string>,
                             originalRows: nat, removedRows: int, finalRows: nat)

  /** Lines 66-90: each enabled rule in turn drops the rows it selects and
      reports how many; the removed count is the difference of the row counts. */
  method Preprocess(rows: seq<CsvRow>, rule1: bool, rule2: bool) returns (o: Outcome)
    ensures var afterRule1 := if rule1 then Without(rows, SavingVaultTopup) else rows;
      && o.processed == (if rule2 then Without(afterRule1, FlexibleCashDeposit) else afterRule1)
      && o.appliedRules ==
           (if rule1 then [RuleMessage(SavingVaultTopup, CountMatches(rows, SavingVaultTopup))] else [])
           + (if rule2 then [RuleMessage(FlexibleCashDeposit, CountMatches(afterRule1, FlexibleCashDeposit))] else [])
      && o.removedRows ==
           (if rule1 then CountMatches(rows, SavingVaultTopup) else 0)
           + (if rule2 then CountMatches(afterRule1, FlexibleCashDeposit) else 0)
    ensures o.originalRows == |rows| && o.finalRows == |o.processed|
    ensures o.removedRows == o.originalRows - o.finalRows && o.finalRows <= o.originalRows
    ensures IsSubsequence(o.processed, rows)
    ensures forall row :: row in o.processed ==> row in rows
    ensures rule1 ==> forall row :: row in o.processed ==> !Matches(SavingVaultTopup, row)
    ensures rule2 ==> forall row :: row in o.processed ==> !Matches(FlexibleCashDeposit, row)
  {
    var originalRowCount := |rows|;
    var processed := rows;
    var removedRows: seq<string> := [];
    IsSubsequenceReflexive(rows);
    if rule1 {
      var removedCount := CountMatches(processed, SavingVaultTopup);
      removedRows := removedRows + [RuleMessage(SavingVaultTopup, removedCount)];
      WithoutSubsequence(processed, SavingVaultTopup);
      processed := Without(processed, SavingVaultTopup);
    }
    if rule2 {
      var removedCount := CountMatches(processed, FlexibleCashDeposit);
      removedRows := removedRows + [RuleMessage(FlexibleCashDeposit, removedCount)];
      WithoutSubsequence(processed, FlexibleCashDeposit);
      SubsequenceTransitive(Without(processed, FlexibleCashDeposit), processed, rows);
      processed := Without(processed, FlexibleCashDeposit);
    }
    SubsequenceMembers(processed, rows);
    o := Outcome(processed, removedRows, originalRowCount, originalRowCount - |processed|, |processed|);
  }

  lemma {:induction false} IsSubsequenceReflexive<T>(xs: seq<T>)
    ensures IsSubsequence(xs, xs)
  {
    if xs != [] {
      IsSubsequenceReflexive(xs[..|xs| - 1]);
    }
  }

  lemma {:induction false} SubsequenceMembers<T>(xs: seq<T>, ys: seq<T>)
    requires IsSubsequence(xs, ys)
    ensures forall x :: x in xs ==> x in ys
    decreases |ys|
  {
    if xs != [] {
      var yInit := ys[..|ys| - 1];
      if xs[|xs| - 1] == ys[|ys| - 1] {
        SubsequenceMembers(xs[..|xs| - 1], yInit);
        assert xs == xs[..|xs| - 1] + [xs[|xs| - 1]];
      } else {
        SubsequenceMembers(xs, yInit);
      }
    }
  }

  /** Lines 104-109: a ".csv" name gets "_processed" before the extension; any
      other name gets "_processed.csv" appended. */
  function OutputFilename(original: string): (name: string)
    ensures EndsWith(name, "_processed.csv")
    ensures EndsWith(original, ".csv") ==> name == original[..|original| - 4] + "_processed.csv"
    ensures !EndsWith(original, ".csv") ==> name == original + "_processed.csv"
  {
    if EndsWith(original, ".csv") then original[..|original| - 4] + "_processed.csv"
    else original + "_processed.csv"
  }

  /** The name before "_processed.csv" is the original name without its ".csv". */
  lemma OutputFilenameBase(original: string)
    ensures var name := OutputFilename(original);
      |name| >= 14
      && name[..|name| - 14] == (if EndsWith(original, ".csv") then original[..|original| - 4] else original)
  {
  }

  /** The whole page after an upload: the bank type, and for Revolut files the
      processed rows, the figures and the download name; other banks have no
      rules. */
  datatype PageResult =
    | NoRulesForBank(bankType: string)
    | Processed(outcome: Outcome, outputFilename: string)

  method ProcessUpload(columns: seq<string>, rows: seq<CsvRow>, filename: string, rule1: bool, rule2: bool)
    returns (page: PageResult)
    ensures DetectBankType(columns) != "Revolut" <==> page.NoRulesForBank?
    ensures page.NoRulesForBank? ==> page.bankType == "Unknown"
    ensures page.Processed? ==>
      && page.outputFilename == OutputFilename(filename)
      && (var afterRule1 := if rule1 then Without(rows, SavingVaultTopup) else rows;
          && page.outcome.processed == (if rule2 then Without(afterRule1, FlexibleCashDeposit) else afterRule1)
          && page.outcome.appliedRules ==
               (if rule1 then [RuleMessage(SavingVaultTopup, CountMatches(rows, SavingVaultTopup))] else [])
               + (if rule2 then [RuleMessage(FlexibleCashDeposit, CountMatches(afterRule1, FlexibleCashDeposit))] else []))
      && (rule1 ==> forall row :: row in page.outcome.processed ==> !Matches(SavingVaultTopup, row))
      && (rule2 ==> forall row :: row in page.outcome.processed ==> !Matches(FlexibleCashDeposit, row))
      && page.outcome.originalRows == |rows|
      && page.outcome.finalRows == |page.outcome.processed|
      && IsSubsequence(page.outcome.processed, rows)
      && page.outcome.removedRows == page.outcome.originalRows - page.outcome.finalRows
  {
    var bankType := DetectBankType(columns);
    if bankType == "Revolut" {
      var o := Preprocess(rows, rule1, rule2);
      page := Processed(o, OutputFilename(filename));
    } else {
      page := NoRulesForBank(bankType);
    }
  }
}
