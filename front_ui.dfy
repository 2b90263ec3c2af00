/**
 * The data side of the user-interface module: the rows of the CSV export
 * of users and transactions, the list filters behind the search box and the
 * filter menu, and the document written by the JSON export.
 */
module FrontUi {
  import opened Wrappers
  import opened DriverValues
  import opened Seqs
  import Text
  import Csv
  import FrontValues
  import FrontUtils

  // ---------------------------------------------------------------------------
  // CSV export

  const USER_HEADERS: seq<string> :=
    ["User ID", "Name", "Email", "Phone", "Address", "Risk Level", "Account Age", "Created At", "Payment Methods"]

  const TRANSACTION_HEADERS: seq<string> :=
    ["Transaction ID", "Amount", "Currency", "Description", "Status", "Type", "From User ID", "To User ID",
     "Category", "IP Address", "Device ID", "Timestamp", "Created At", "Business", "Merchant"]

  const NO_USERS := "No users found"
  const NO_TRANSACTIONS := "No transactions found"

  /** `String(x || 'N/A')`: the text of one CSV cell. */
  function Cell(o: Option<Value>): string {
    FrontValues.Render(FrontValues.OrNA(o))
  }

  /** `pm ? Object.values(pm).join('; ') : 'N/A'`. */
  function PaymentMethodsCell(u: Value): string {
    var pm := Field(u, "paymentMethods");
    if FrontValues.Present(pm) then FrontValues.JoinValues(FrontValues.ObjectValues(pm.value), "; ") else "N/A"
  }

  function UserRow(u: Value): (r: seq<string>)
    ensures |r| == 9
    ensures r[6] == Cell(FrontValues.Nested(u, "metadata", "accountAge"))
    ensures r[8] == PaymentMethodsCell(u)
  {
    [Cell(Field(u, "id")), Cell(Field(u, "name")), Cell(Field(u, "email")), Cell(Field(u, "phone")),
     Cell(Field(u, "address")), Cell(FrontValues.Nested(u, "metadata", "riskLevel")),
     Cell(FrontValues.Nested(u, "metadata", "accountAge")), Cell(Field(u, "createdAt")), PaymentMethodsCell(u)]
  }

  function TransactionRow(t: Value): (r: seq<string>)
    ensures |r| == 15
    ensures r[8] == Cell(FrontValues.Nested(t, "metadata", "category"))
    ensures r[13] == Cell(FrontValues.Nested(t, "metadata", "business"))
    ensures r[14] == Cell(FrontValues.Nested(t, "metadata", "merchant"))
  {
    var category := Cell(FrontValues.Nested(t, "metadata", "category"));
    var business := Cell(FrontValues.Nested(t, "metadata", "business"));
    var merchant := Cell(FrontValues.Nested(t, "metadata", "merchant"));
    [Cell(Field(t, "id")), Cell(Field(t, "amount")), Cell(Field(t, "currency")), Cell(Field(t, "description")),
     Cell(Field(t, "status")), Cell(Field(t, "type")), Cell(Field(t, "fromUserId")), Cell(Field(t, "toUserId")),
     category, Cell(Field(t, "ipAddress")), Cell(Field(t, "deviceId")),
     Cell(Field(t, "timestamp")), Cell(Field(t, "createdAt")), business, merchant]
  }

  /** The header followed by one row per item, in input order. */
  function Table(headers: seq<string>, items: seq<Value>, row: Value -> seq<string>): (r: seq<seq<string>>)
    ensures |r| == |items| + 1
    ensures r[0] == headers
    ensures forall i :: 0 <= i < |items| ==> r[i + 1] == row(items[i])
  {
    [headers] + seq(|items|, i requires 0 <= i < |items| => row(items[i]))
  }

  function ConvertUsersToCsv(users: seq<Value>): string {
    if users == [] then NO_USERS else Csv.EncodeTable(Table(USER_HEADERS, users, UserRow))
  }

  function ConvertTransactionsToCsv(transactions: seq<Value>): string {
    if transactions == [] then NO_TRANSACTIONS else Csv.EncodeTable(Table(TRANSACTION_HEADERS, transactions, TransactionRow))
  }

  /** The user export reads back as the header and one 9-field record per user, in order;
      with no users it is the message, which is not a table. */
  lemma UsersCsvReadsBack(users: seq<Value>)
    ensures users != [] ==> Csv.ParseTable(ConvertUsersToCsv(users)) == Some(Table(USER_HEADERS, users, UserRow))
    ensures users == [] ==> ConvertUsersToCsv(users) == NO_USERS && Csv.ParseTable(NO_USERS) == None
  {
    if users != [] {
      var rows := Table(USER_HEADERS, users, UserRow);
      forall i | 0 <= i < |rows| ensures |rows[i]| > 0 {
        if i > 0 { assert rows[i] == UserRow(users[i - 1]); }
      }
      Csv.TableRoundTrip(rows);
    }
  }

  /** The same for transactions, with 15 fields per record. */
  lemma TransactionsCsvReadsBack(transactions: seq<Value>)
    ensures transactions != [] ==>
              Csv.ParseTable(ConvertTransactionsToCsv(transactions)) == Some(Table(TRANSACTION_HEADERS, transactions, TransactionRow))
    ensures transactions == [] ==> ConvertTransactionsToCsv(transactions) == NO_TRANSACTIONS && Csv.ParseTable(NO_TRANSACTIONS) == None
  {
    if transactions != [] {
      var rows := Table(TRANSACTION_HEADERS, transactions, TransactionRow);
      forall i | 0 <= i < |rows| ensures |rows[i]| > 0 {
        if i > 0 { assert rows[i] == TransactionRow(transactions[i - 1]); }
      }
      Csv.TableRoundTrip(rows);
    }
  }

  /** A falsy value is exported as `N/A`: an account age of 0 among them. */
  lemma ZeroAccountAgeIsNA(u: Value)
    requires FrontValues.Nested(u, "metadata", "accountAge") == Some(Num(0))
    ensures UserRow(u)[6] == "N/A"
  {
  }

  /** A user's payment methods, an index-keyed object as the server sends them, are
      exported as the methods joined by `; `. */
  lemma PaymentMethodsJoined(u: Value, a: string, b: string)
    requires Field(u, "paymentMethods") == Some(Obj([("0", Str(a)), ("1", Str(b))]))
    ensures UserRow(u)[8] == a + "; " + b
  {
    var vs := FrontValues.ObjectValues(Obj([("0", Str(a)), ("1", Str(b))]));
    assert vs == [Str(a), Str(b)];
    assert UserRow(u)[8] == PaymentMethodsCell(u);
    var items := seq(|vs|, i requires 0 <= i < |vs| => FrontValues.ItemString(vs[i]));
    assert PaymentMethodsCell(u) == Text.Join(items, "; ");
    assert items[0] == FrontValues.ItemString(Str(a)) == a;
    assert items[1] == FrontValues.ItemString(Str(b)) == b;
    assert items == [a, b];
    assert items[1..] == [b];
    assert Text.Join(items, "; ") == a + "; " + Text.Join([b], "; ");
  }

  // ---------------------------------------------------------------------------
  // Filters behind the search box and the filter menu

  /** The search box matches an item when one of `keys` holds a string whose lowercase form
      contains the lowercased input (the input is not itself tested for emptiness here). */
  predicate SearchMatches(v: Value, keys: seq<string>, input: string) {
    FrontUtils.AnyIncludes(v, keys, Text.Lower(input))
  }

  /** The filter menu: an empty choice accepts everything. */
  predicate MenuMatches(v: Value, key: string, choice: string) {
    choice == "" || FrontUtils.MetadataIs(v, key, choice)
  }

  function FilterList(items: seq<Value>, keys: seq<string>, input: string, key: string, choice: string): (r: seq<Value>)
    ensures forall v :: v in r <==>
              v in items && FrontUtils.AnyMentions(v, keys, Text.Lower(input)) && MenuMatches(v, key, choice)
  {
    FrontUtils.AnyIncludesIff(keys, Text.Lower(input));
    Filter(items, v => SearchMatches(v, keys, input) && MenuMatches(v, key, choice))
  }

  lemma FilterListAppend(a: seq<Value>, b: seq<Value>, keys: seq<string>, input: string, key: string, choice: string)
    ensures FilterList(a + b, keys, input, key, choice) ==
            FilterList(a, keys, input, key, choice) + FilterList(b, keys, input, key, choice)
  {
    FilterAppend(a, b, v => SearchMatches(v, keys, input) && MenuMatches(v, key, choice));
  }

  /** `filterUsers`: name, email or id mentions the search text, and the risk level is the
      chosen one when one is chosen. */
  function FilterUsers(users: seq<Value>, input: string, riskChoice: string): (r: seq<Value>)
    ensures forall u :: u in r <==> u in users && FrontUtils.AnyMentions(u, FrontUtils.USER_SEARCH_KEYS, Text.Lower(input)) &&
                                    (riskChoice == "" || FrontUtils.MetadataIs(u, "riskLevel", riskChoice))
  {
    FilterList(users, FrontUtils.USER_SEARCH_KEYS, input, "riskLevel", riskChoice)
  }

  /** `filterTransactions`: id, description, sender or recipient mentions the search text, and
      the category is the chosen one when one is chosen. */
  function FilterTransactions(transactions: seq<Value>, input: string, categoryChoice: string): (r: seq<Value>)
    ensures forall t :: t in r <==> t in transactions && FrontUtils.AnyMentions(t, FrontUtils.TRANSACTION_SEARCH_KEYS, Text.Lower(input)) &&
                                    (categoryChoice == "" || FrontUtils.MetadataIs(t, "category", categoryChoice))
  {
    FilterList(transactions, FrontUtils.TRANSACTION_SEARCH_KEYS, input, "category", categoryChoice)
  }

  /** With an empty search box and no menu choice, every user whose name is a string is shown. */
  lemma EmptyFiltersKeepNamedUsers(users: seq<Value>, u: Value)
    requires u in users && FrontValues.StringField(u, "name").Some?
    ensures u in FilterUsers(users, "", "")
  {
    assert FrontUtils.USER_SEARCH_KEYS[0] == "name";
    assert Text.OccursAt(Text.Lower(FrontValues.StringField(u, "name").value), Text.Lower(""), 0);
    assert FrontUtils.Mentions(u, "name", Text.Lower(""));
  }

  // ---------------------------------------------------------------------------
  // JSON export

  /** The document `exportToJSON` serialises: both lists, the clock reading `exportDate`,
      and their sizes. */
  datatype ExportDocument = ExportDocument(users: seq<Value>, transactions: seq<Value>, exportDate: string,
                                           totalUsers: nat, totalTransactions: nat)

  function ExportToJson(users: seq<Value>, transactions: seq<Value>, exportDate: string): (r: ExportDocument)
    ensures r.users == users && r.transactions == transactions && r.exportDate == exportDate
    ensures r.totalUsers == |r.users| && r.totalTransactions == |r.transactions|
  {
    ExportDocument(users, transactions, exportDate, |users|, |transactions|)
  }
}
