/** The Firefly III API client's construction and its two record-flattening
    operations: one account row per account, and one transaction row per split
    of every transaction group. The HTTP calls are not part of this model. */
module ApiClient {
  import opened Common

  /** A key of a JSON object as Python's `dict.get` sees it: missing, present
      with `null`, or present with a value. */
  datatype Field<+T> = Absent | Null | Value(value: T)

  /** `obj.get(key, default)`: the default applies only to a missing key; an
      explicit `null` comes back as None. */
  function Get<T>(f: Field<T>, default: T): Option<T> {
    match f
    case Absent => Some(default)
    case Null => None
    case Value(v) => Some(v)
  }

  /** `obj.get(key)`. */
  function GetOpt<T>(f: Field<T>): Option<T> {
    match f
    case Value(v) => Some(v)
    case _ => None
  }

  /** The exceptions the flattening can raise on malformed records: calling
      `.get` on a `null` object, and `float(None)` or iterating over `None`. */
  datatype ParseError = AttributeError | TypeError

  // ---------------------------------------------------------------------------
  // Base URL and headers

  /** `s.rstrip('/')`. */
  function RStripSlash(s: string): (r: string)
    ensures |r| <= |s| && r == s[..|r|]
    ensures forall k :: |r| <= k < |s| ==> s[k] == '/'
    ensures r == [] || r[|r| - 1] != '/'
  {
    if s == [] || s[|s| - 1] != '/' then s else RStripSlash(s[..|s| - 1])
  }

  /** Stripping twice strips nothing more, and a trailing slash never matters. */
  lemma RStripSlashIdempotent(s: string)
    ensures RStripSlash(RStripSlash(s)) == RStripSlash(s)
    ensures RStripSlash(s + "/") == RStripSlash(s)
  {
    assert (s + "/")[..|s + "/"| - 1] == s;
  }

  class FireflyApiClient {
    var baseUrl: string
    var apiToken: string
    var headers: map<string, string>

    constructor (baseUrl: string, apiToken: string)
      ensures this.baseUrl == RStripSlash(baseUrl)
      ensures this.apiToken == apiToken
      ensures headers == map[
        "Authorization" := "Bearer " + apiToken,
        "Accept" := "application/vnd.api+json",
        "Content-Type" := "application/json"]
    {
      this.baseUrl := RStripSlash(baseUrl);
      this.apiToken := apiToken;
      headers := map[
        "Authorization" := "Bearer " + apiToken,
        "Accept" := "application/vnd.api+json",
        "Content-Type" := "application/json"];
    }

    /** One row per account, in input order, or the error of the first account
        that cannot be read. */
    method ParseAccountData(accountsData: seq<ApiAccount>) returns (r: Result<seq<AccountRow>, ParseError>)
      ensures r.Success? <==> forall i :: 0 <= i < |accountsData| ==> AccountRowOf(accountsData[i]).Success?
      ensures r.Success? ==> |r.value| == |accountsData|
      ensures r.Success? ==> forall i :: 0 <= i < |accountsData| ==> r.value[i] == AccountRowOf(accountsData[i]).value
      ensures r.Failure? ==> exists i :: 0 <= i < |accountsData| && AccountRowOf(accountsData[i]) == Failure(r.error) &&
                                         forall k :: 0 <= k < i ==> AccountRowOf(accountsData[k]).Success?
    {
      var accounts: seq<AccountRow> := [];
      var i := 0;
      while i < |accountsData|
        invariant 0 <= i <= |accountsData| && |accounts| == i
        invariant forall k :: 0 <= k < i ==> AccountRowOf(accountsData[k]) == Success(accounts[k])
      {
        var row := AccountRowOf(accountsData[i]);
        if row.Failure? {
          return Failure(row.error);
        }
        accounts := accounts + [row.value];
        i := i + 1;
      }
      return Success(accounts);
    }

    /** One row per split, transactions in input order and the splits of each in
        their order, or the error of the first record that cannot be read. */
    method ParseTransactionData(transactionsData: seq<ApiTransaction>) returns (r: Result<seq<TransactionRow>, ParseError>)
      ensures r == TransactionRows(transactionsData)
    {
      var transactions: seq<TransactionRow> := [];
      var i := 0;
      while i < |transactionsData|
        invariant 0 <= i <= |transactionsData|
        invariant TransactionRows(transactionsData[..i]) == Success(transactions)
      {
        var transaction := transactionsData[i];
        assert transactionsData[..i + 1][..i] == transactionsData[..i];
        var splits := SplitsOf(transaction);
        if splits.Failure? {
          TransactionRowsFailureSticks(transactionsData, i + 1);
          return Failure(splits.error);
        }
        var id := GetOpt(transaction.id);
        ghost var before := transactions;
        var j := 0;
        assert splits.value[..0] == [] && transactions[|before|..] == [];
        while j < |splits.value|
          invariant 0 <= j <= |splits.value|
          invariant |before| <= |transactions| && transactions[..|before|] == before
          invariant SplitRows(id, splits.value[..j]) == Success(transactions[|before|..])
        {
          var row := SplitRow(id, splits.value[j]);
          assert splits.value[..j + 1][..j] == splits.value[..j];
          if row.Failure? {
            SplitRowsFailureSticks(id, splits.value, j + 1);
            assert splits.value[..|splits.value|] == splits.value;
            TransactionRowsFailureSticks(transactionsData, i + 1);
            return Failure(row.error);
          }
          ghost var done := transactions[|before|..];
          transactions := transactions + [row.value];
          assert transactions[|before|..] == done + [row.value];
          j := j + 1;
        }
        assert splits.value[..j] == splits.value;
        assert transactions == before + transactions[|before|..];
        i := i + 1;
      }
      assert transactionsData[..i] == transactionsData;
      return Success(transactions);
    }
  }

  // ---------------------------------------------------------------------------
  // Accounts

  datatype AccountAttributes = AccountAttributes(
    name: Field<string>, accountType: Field<string>, accountRole: Field<string>,
    currencyCode: Field<string>, currentBalance: Field<real>, iban: Field<string>,
    active: Field<bool>, includeNetWorth: Field<bool>)

  /** An account record of the API. The balance arrives as a decimal string;
      its conversion by `float` is taken as already done. */
  datatype ApiAccount = ApiAccount(id: Field<string>, attributes: Field<AccountAttributes>)

  /** A row of the accounts table; None stands for a null cell. */
  datatype AccountRow = AccountRow(
    id: Option<string>, name: Option<string>, accountType: Option<string>,
    accountRole: Option<string>, currencyCode: Option<string>, currentBalance: real,
    iban: Option<string>, active: Option<bool>, includeNetWorth: Option<bool>)

  /** `account.get('attributes', {})` read through. */
  function AccountAttributesOf(a: ApiAccount): Option<AccountAttributes> {
    match a.attributes
    case Absent => Some(AccountAttributes(Absent, Absent, Absent, Absent, Absent, Absent, Absent, Absent))
    case Null => None
    case Value(at) => Some(at)
  }

  /** The row for one account: a missing text field becomes "", a missing
      currency "EUR", a missing balance 0 and missing flags true; explicit nulls
      stay null, except that a null balance or null attributes raise. */
  function AccountRowOf(a: ApiAccount): (r: Result<AccountRow, ParseError>)
    ensures a.attributes.Null? ==> r == Failure(AttributeError)
    ensures r.Failure? <==> a.attributes.Null? || (a.attributes.Value? && a.attributes.value.currentBalance.Null?)
    ensures r.Success? ==> r.value.id == GetOpt(a.id)
    ensures a.attributes.Absent? ==> r == Success(AccountRow(
      GetOpt(a.id), Some(""), Some(""), Some(""), Some("EUR"), 0.0, Some(""), Some(true), Some(true)))
    ensures r.Success? && a.attributes.Value? ==>
      var at := a.attributes.value;
      && r.value.currencyCode == Get(at.currencyCode, "EUR")
      && r.value.currentBalance == (if at.currentBalance.Value? then at.currentBalance.value else 0.0)
      && r.value.includeNetWorth == Get(at.includeNetWorth, true)
      && r.value.active == Get(at.active, true)
      && r.value.name == Get(at.name, "")
  {
    match AccountAttributesOf(a)
    case None => Failure(AttributeError)
    case Some(at) =>
      if at.currentBalance.Null? then Failure(TypeError)
      else
        var balance := match at.currentBalance case Value(b) => b case _ => 0.0;
        Success(AccountRow(
          GetOpt(a.id), Get(at.name, ""), Get(at.accountType, ""), Get(at.accountRole, ""),
          Get(at.currencyCode, "EUR"), balance, Get(at.iban, ""),
          Get(at.active, true), Get(at.includeNetWorth, true)))
  }

  // ---------------------------------------------------------------------------
  // Transactions

  /** One split of a transaction group. The amount arrives as a decimal string;
      its conversion by `float` is taken as already done. */
  datatype Split = Split(
    date: Field<string>, description: Field<string>, amount: Field<real>,
    currencyCode: Field<string>, splitType: Field<string>, categoryName: Field<string>,
    budgetName: Field<string>, sourceName: Field<string>, destinationName: Field<string>,
    notes: Field<string>)

  datatype TransactionAttributes = TransactionAttributes(transactions: Field<seq<Split>>)

  datatype ApiTransaction = ApiTransaction(id: Field<string>, attributes: Field<TransactionAttributes>)

  /** A row of the transactions table; None stands for a null cell. */
  datatype TransactionRow = TransactionRow(
    id: Option<string>, date: Option<string>, description: Option<string>, amount: real,
    currencyCode: Option<string>, splitType: Option<string>, categoryName: Option<string>,
    budgetName: Option<string>, sourceName: Option<string>, destinationName: Option<string>,
    notes: Option<string>)

  /** `attributes.get('transactions', [])` of `transaction.get('attributes', {})`. */
  function SplitsOf(t: ApiTransaction): (r: Result<seq<Split>, ParseError>)
    ensures t.attributes.Absent? ==> r == Success([])
    ensures t.attributes.Value? && t.attributes.value.transactions.Absent? ==> r == Success([])
    ensures r.Failure? <==> t.attributes.Null? || (t.attributes.Value? && t.attributes.value.transactions.Null?)
  {
    match t.attributes
    case Absent => Success([])
    case Null => Failure(AttributeError)
    case Value(at) =>
      match at.transactions
      case Absent => Success([])
      case Null => Failure(TypeError)
      case Value(s) => Success(s)
  }

  /** The row for one split: it carries the id of its transaction group; a
      missing amount is 0, a missing currency "EUR" and a missing text field "". */
  function SplitRow(id: Option<string>, s: Split): (r: Result<TransactionRow, ParseError>)
    ensures r.Failure? <==> s.amount.Null?
    ensures r.Success? ==> r.value.id == id
    ensures r.Success? ==> r.value.amount == (if s.amount.Value? then s.amount.value else 0.0)
    ensures r.Success? ==> r.value.currencyCode == Get(s.currencyCode, "EUR")
    ensures r.Success? ==> r.value.date == GetOpt(s.date) && r.value.description == Get(s.description, "")
  {
    if s.amount.Null? then Failure(TypeError)
    else
      var amount := match s.amount case Value(v) => v case _ => 0.0;
      Success(TransactionRow(
        id, GetOpt(s.date), Get(s.description, ""), amount, Get(s.currencyCode, "EUR"),
        Get(s.splitType, ""), Get(s.categoryName, ""), Get(s.budgetName, ""),
        Get(s.sourceName, ""), Get(s.destinationName, ""), Get(s.notes, "")))
  }

  /** The rows of a list of splits, or the first error. */
  function SplitRows(id: Option<string>, splits: seq<Split>): Result<seq<TransactionRow>, ParseError> {
    if splits == [] then Success([])
    else
      match SplitRows(id, splits[..|splits| - 1])
      case Failure(e) => Failure(e)
      case Success(rows) =>
        match SplitRow(id, splits[|splits| - 1])
        case Failure(e) => Failure(e)
        case Success(row) => Success(rows + [row])
  }

  /** The rows of one transaction group. */
  function RowsOf(t: ApiTransaction): Result<seq<TransactionRow>, ParseError> {
    match SplitsOf(t)
    case Failure(e) => Failure(e)
    case Success(splits) => SplitRows(GetOpt(t.id), splits)
  }

  /** The transactions table: the rows of every group, in order, or the first error. */
  function TransactionRows(ts: seq<ApiTransaction>): Result<seq<TransactionRow>, ParseError> {
    if ts == [] then Success([])
    else
      match TransactionRows(ts[..|ts| - 1])
      case Failure(e) => Failure(e)
      case Success(rows) =>
        match RowsOf(ts[|ts| - 1])
        case Failure(e) => Failure(e)
        case Success(more) => Success(rows + more)
  }

  lemma {:induction false} SplitRowsFailureSticks(id: Option<string>, splits: seq<Split>, k: nat)
    requires k <= |splits| && SplitRows(id, splits[..k]).Failure?
    ensures SplitRows(id, splits) == SplitRows(id, splits[..k])
    decreases |splits| - k
  {
    if k < |splits| {
      assert splits[..k + 1][..k] == splits[..k];
      SplitRowsFailureSticks(id, splits, k + 1);
    } else {
      assert splits[..k] == splits;
    }
  }

  lemma {:induction false} TransactionRowsFailureSticks(ts: seq<ApiTransaction>, k: nat)
    requires k <= |ts| && TransactionRows(ts[..k]).Failure?
    ensures TransactionRows(ts) == TransactionRows(ts[..k])
    decreases |ts| - k
  {
    if k < |ts| {
      assert ts[..k + 1][..k] == ts[..k];
      TransactionRowsFailureSticks(ts, k + 1);
    } else {
      assert ts[..k] == ts;
    }
  }

  /** The number of splits of a readable group. */
  function SplitCount(t: ApiTransaction): nat {
    match SplitsOf(t)
    case Success(s) => |s|
    case Failure(_) => 0
  }

  /** The number of splits of the groups, counted from the front. */
  function TotalSplits(ts: seq<ApiTransaction>): nat {
    if ts == [] then 0 else SplitCount(ts[0]) + TotalSplits(ts[1..])
  }

  lemma {:induction false} TotalSplitsAppend(ts: seq<ApiTransaction>, t: ApiTransaction)
    ensures TotalSplits(ts + [t]) == TotalSplits(ts) + SplitCount(t)
  {
    if ts == [] {
      assert ts + [t] == [t];
    } else {
      assert (ts + [t])[1..] == ts[1..] + [t];
      TotalSplitsAppend(ts[1..], t);
    }
  }

  lemma {:induction false} TotalSplitsPrefix(ts: seq<ApiTransaction>, i: nat)
    requires i < |ts|
    ensures TotalSplits(ts[..i]) + SplitCount(ts[i]) <= TotalSplits(ts)
    decreases |ts|
  {
    var n := |ts| - 1;
    assert ts == ts[..n] + [ts[n]];
    TotalSplitsAppend(ts[..n], ts[n]);
    if i < n {
      assert ts[..n][..i] == ts[..i] && ts[..n][i] == ts[i];
      TotalSplitsPrefix(ts[..n], i);
    }
  }

  lemma {:induction false} SplitRowsShape(id: Option<string>, splits: seq<Split>)
    requires SplitRows(id, splits).Success?
    ensures |SplitRows(id, splits).value| == |splits|
    ensures forall j :: 0 <= j < |splits| ==>
      SplitRow(id, splits[j]).Success? && SplitRows(id, splits).value[j] == SplitRow(id, splits[j]).value
  {
    if splits != [] {
      SplitRowsShape(id, splits[..|splits| - 1]);
    }
  }

  /** Split j of group i is row TotalSplits(ts[..i]) + j of the table, and that
      row carries the group's id. */
  predicate SplitLandsAt(ts: seq<ApiTransaction>, i: nat, j: nat)
    requires TransactionRows(ts).Success? && i < |ts|
  {
    && SplitsOf(ts[i]).Success?
    && j < |SplitsOf(ts[i]).value|
    && TotalSplits(ts[..i]) + j < |TransactionRows(ts).value|
    && SplitRow(GetOpt(ts[i].id), SplitsOf(ts[i]).value[j]).Success?
    && TransactionRows(ts).value[TotalSplits(ts[..i]) + j] == SplitRow(GetOpt(ts[i].id), SplitsOf(ts[i]).value[j]).value
    && TransactionRows(ts).value[TotalSplits(ts[..i]) + j].id == GetOpt(ts[i].id)
  }

  /** Exactly one row per split: the table has as many rows as there are splits,
      and split j of group i is row TotalSplits(ts[..i]) + j, carrying the
      group's id. */
  lemma {:induction false} OneRowPerSplit(ts: seq<ApiTransaction>)
    requires TransactionRows(ts).Success?
    ensures |TransactionRows(ts).value| == TotalSplits(ts)
    ensures forall i: nat, j: nat :: i < |ts| && j < SplitCount(ts[i]) ==> SplitLandsAt(ts, i, j)
  {
    if ts != [] {
      var n := |ts| - 1;
      var init := ts[..n];
      var last := ts[n];
      assert ts == init + [last];
      OneRowPerSplit(init);
      TotalSplitsAppend(init, last);
      var splits := SplitsOf(last).value;
      SplitRowsShape(GetOpt(last.id), splits);
      forall i: nat, j: nat | i < |ts| && j < SplitCount(ts[i])
        ensures SplitLandsAt(ts, i, j)
      {
        TotalSplitsPrefix(ts, i);
        if i < n {
          assert ts[..i] == init[..i] && ts[i] == init[i];
          assert SplitLandsAt(init, i, j);
          TotalSplitsPrefix(init, i);
        } else {
          assert ts[..i] == init;
        }
      }
    }
  }

  /** A group without a `transactions` list adds no row. */
  lemma GroupWithoutSplitsAddsNothing(ts: seq<ApiTransaction>, t: ApiTransaction)
    requires t.attributes.Absent? || (t.attributes.Value? && t.attributes.value.transactions.Absent?)
    ensures TransactionRows(ts + [t]) == TransactionRows(ts)
  {
    assert (ts + [t])[..|ts + [t]| - 1] == ts;
    if TransactionRows(ts).Success? {
      assert TransactionRows(ts).value + [] == TransactionRows(ts).value;
    }
  }
}
