/**
 * The reports page: the selected month's breakdown with each category's
 * share, the six-month comparison by payer, and the CSV export of the
 * month's expenses.
 */
module Reports {
  import opened Wrappers
  import opened Seqs
  import opened Text
  import opened Domain
  import opened Dashboard
  import opened Breakdown
  import opened Insights

  // ------------------------------------------------------- category shares

  /** A share of a non-negative part of a positive whole is a percentage between 0 and 100. */
  lemma PercentOfPart(part: real, whole: real)
    requires 0.0 <= part <= whole && whole > 0.0
    ensures 0 <= Percent(part, whole) <= 100
  {
    var q := part / whole;
    assert q * whole == part;
    assert 0.0 <= q * 100.0 <= 100.0;
  }

  /**
   * With positive amounts every slice's share label `round(value /
   * totalMonth · 100)` is a percentage between 0 and 100 (a slice exists
   * only when the month has expenses, so the total is not 0).
   */
  lemma ShareLabelBounds(monthExpenses: seq<Expense>, categories: seq<Category>, i: nat)
    requires AllPositive(monthExpenses) && i < |CategoryBreakdown(monthExpenses, categories)|
    ensures TotalAmount(monthExpenses) > 0.0
    ensures var r := CategoryBreakdown(monthExpenses, categories);
      0 <= Percent(r[i].value, TotalAmount(monthExpenses)) <= 100
  {
    var r := CategoryBreakdown(monthExpenses, categories);
    CategoryBreakdownValues(monthExpenses, categories);
    var n := r[i].name;
    assert n in GroupNames(monthExpenses, categories);
    assert monthExpenses != [];
    TotalOfPositive(monthExpenses);
    FilteredTotalBounds(monthExpenses, (e: Expense) => GroupName(categories, e) == n);
    assert 0.0 <= r[i].value <= TotalAmount(monthExpenses);
    PercentOfPart(r[i].value, TotalAmount(monthExpenses));
  }

  // --------------------------------------------------- six-month comparison

  /** A month `i` months back: its first and last day and its short name, from the date library. */
  datatype MonthBounds = MonthBounds(start: string, end: string, name: string)

  /** One bar of the comparison chart. */
  datatype MonthSummary = MonthSummary(month: string, total: real, mine: real, partner: real)

  /** The month's expenses, their total, and what each member paid of them. */
  function Summarize(expenses: seq<Expense>, user: Option<Profile>, partner: Option<Profile>, b: MonthBounds): MonthSummary {
    var month := InDateRange(expenses, b.start, b.end);
    MonthSummary(b.name, TotalAmount(month), PayerTotal(month, user), PayerTotal(month, partner))
  }

  /**
   * `monthlyComparison`: with `i` counting down from 5 to 0, one entry per
   * month, so there are six, the oldest first and the current month last.
   */
  method MonthlyComparison(expenses: seq<Expense>, user: Option<Profile>, partner: Option<Profile>, monthsAgo: nat -> MonthBounds)
    returns (months: seq<MonthSummary>)
    ensures |months| == 6
    ensures forall k :: 0 <= k < 6 ==> months[k] == Summarize(expenses, user, partner, monthsAgo(5 - k))
    ensures months[5] == Summarize(expenses, user, partner, monthsAgo(0))
  {
    months := [];
    for i := 6 downto 0
      invariant |months| == 6 - i
      invariant forall k :: 0 <= k < |months| ==> months[k] == Summarize(expenses, user, partner, monthsAgo(5 - k))
    {
      var b := monthsAgo(i);
      var monthExpenses := InDateRange(expenses, b.start, b.end);
      var total := TotalAmount(monthExpenses);
      months := months + [MonthSummary(b.name, total, PayerTotal(monthExpenses, user), PayerTotal(monthExpenses, partner))];
    }
  }

  /**
   * In a household where every expense was paid by one of the two
   * members, each bar's two parts stack up to its total.
   */
  lemma SummaryPartsStack(expenses: seq<Expense>, user: Profile, partner: Profile, b: MonthBounds)
    requires user.id != partner.id
    requires forall e :: e in expenses ==> e.paidBy == user.id || e.paidBy == partner.id
    ensures var m := Summarize(expenses, Some(user), Some(partner), b);
      m.mine + m.partner == m.total
  {
    var month := InDateRange(expenses, b.start, b.end);
    InDateRangeSpec(expenses, b.start, b.end);
    PayerTotalsSplitMonth(month, user, partner);
  }

  // ------------------------------------------------------------- CSV export

  const CsvColumns: seq<string> := ["Fecha", "Descripción", "Categoría", "Monto", "Pagó", "División"]

  /** The header line, without its newline. */
  const CsvHeaderLine: string := Join(CsvColumns, ",")

  /** The header names the six columns, in the order the rows fill them. */
  lemma CsvHeaderColumns()
    ensures Split(CsvHeaderLine, ',') == CsvColumns
    ensures '\n' !in CsvHeaderLine
  {
    CsvColumnsClean();
    SplitJoin(CsvColumns, ',');
    JoinAvoids(CsvColumns, ",", '\n');
  }

  lemma CsvColumnsClean()
    ensures CsvColumns != []
    ensures forall i :: 0 <= i < |CsvColumns| ==> ',' !in CsvColumns[i] && '\n' !in CsvColumns[i]
  {
    assert CsvColumns == ["Fecha", "Descripción", "Categoría", "Monto", "Pagó", "División"];
  }

  /** `'Yo'` when the user paid, else the partner's name or `'Pareja'`. */
  function PayerLabel(e: Expense, user: Option<Profile>, partner: Option<Profile>): string {
    if IdOf(user) == Some(e.paidBy) then "Yo"
    else if partner.Some? && partner.value.name != "" then partner.value.name
    else "Pareja"
  }

  /** `cat?.name || ''`. */
  function CategoryLabel(categories: seq<Category>, e: Expense): string {
    var cat := FindCategory(categories, e.categoryId);
    if cat.Some? then cat.value.name else ""
  }

  /** `e.description || cat?.name || ''`. */
  function DescriptionLabel(categories: seq<Category>, e: Expense): string {
    if Truthy(e.description) then e.description.value else CategoryLabel(categories, e)
  }

  /** The six columns of one row, unescaped; the description is put in double quotes. */
  function CsvFields(e: Expense, categories: seq<Category>, user: Option<Profile>, partner: Option<Profile>): seq<string> {
    [e.date, "\"" + DescriptionLabel(categories, e) + "\"", CategoryLabel(categories, e),
     ShowNumber(e.amount), PayerLabel(e, user, partner), e.splitType]
  }

  function CsvRow(e: Expense, categories: seq<Category>, user: Option<Profile>, partner: Option<Profile>): string {
    Join(CsvFields(e, categories, user, partner), ",")
  }

  function CsvRows(monthExpenses: seq<Expense>, categories: seq<Category>, user: Option<Profile>, partner: Option<Profile>)
    : (r: seq<string>)
    ensures |r| == |monthExpenses|
    ensures forall i :: 0 <= i < |monthExpenses| ==> r[i] == CsvRow(monthExpenses[i], categories, user, partner)
  {
    seq(|monthExpenses|, i requires 0 <= i < |monthExpenses| => CsvRow(monthExpenses[i], categories, user, partner))
  }

  /** The exported text: the header line and its newline, then the rows joined by newlines. */
  function CsvText(monthExpenses: seq<Expense>, categories: seq<Category>, user: Option<Profile>, partner: Option<Profile>): string {
    CsvHeaderLine + "\n" + Join(CsvRows(monthExpenses, categories, user, partner), "\n")
  }

  /**
   * The export reads back line by line: the header, then one row per
   * expense of the month in list order, with no trailing newline, provided
   * no text in a row holds a line break. An empty month gives the header
   * line and its newline alone.
   */
  lemma CsvLines(monthExpenses: seq<Expense>, categories: seq<Category>, user: Option<Profile>, partner: Option<Profile>)
    ensures monthExpenses == [] ==> CsvText(monthExpenses, categories, user, partner) == CsvHeaderLine + "\n"
    ensures (forall i :: 0 <= i < |monthExpenses| ==> '\n' !in CsvRow(monthExpenses[i], categories, user, partner)) ==>
              Split(CsvText(monthExpenses, categories, user, partner), '\n') ==
                [CsvHeaderLine] + (if monthExpenses == [] then [""] else CsvRows(monthExpenses, categories, user, partner))
  {
    var rows := CsvRows(monthExpenses, categories, user, partner);
    CsvHeaderColumns();
    SplitFirst(CsvHeaderLine, Join(rows, "\n"), '\n');
    if (forall i :: 0 <= i < |monthExpenses| ==> '\n' !in CsvRow(monthExpenses[i], categories, user, partner)) && rows != [] {
      SplitJoin(rows, '\n');
    }
  }

  predicate NoComma(s: string) {
    ',' !in s
  }

  /**
   * A row splits back at its commas into its six columns, in order, as
   * long as none of the texts it copies (date, description, category name,
   * partner name, split type) holds a comma: nothing is escaped.
   */
  lemma CsvRowColumns(e: Expense, categories: seq<Category>, user: Option<Profile>, partner: Option<Profile>)
    requires NoComma(e.date) && NoComma(e.splitType)
    requires e.description.Some? ==> NoComma(e.description.value)
    requires forall c :: c in categories ==> NoComma(c.name)
    requires partner.Some? ==> NoComma(partner.value.name)
    ensures var cols := Split(CsvRow(e, categories, user, partner), ',');
      && |cols| == 6
      && cols[0] == e.date
      && cols[1] == "\"" + DescriptionLabel(categories, e) + "\""
      && cols[2] == CategoryLabel(categories, e)
      && cols[3] == ShowNumber(e.amount)
      && cols[4] == PayerLabel(e, user, partner)
      && cols[5] == e.splitType
  {
    var fields := CsvFields(e, categories, user, partner);
    CsvFieldsClean(e, categories, user, partner);
    SplitJoin(fields, ',');
  }

  lemma CsvFieldsClean(e: Expense, categories: seq<Category>, user: Option<Profile>, partner: Option<Profile>)
    requires NoComma(e.date) && NoComma(e.splitType)
    requires e.description.Some? ==> NoComma(e.description.value)
    requires forall c :: c in categories ==> NoComma(c.name)
    requires partner.Some? ==> NoComma(partner.value.name)
    ensures var fields := CsvFields(e, categories, user, partner);
      |fields| == 6 && forall i :: 0 <= i < 6 ==> ',' !in fields[i]
  {
    ShowNumberChars(e.amount);
    assert ',' !in ShowNumber(e.amount) by {
      assert !NumberChar(',');
    }
    assert NoComma(CategoryLabel(categories, e));
    assert NoComma(DescriptionLabel(categories, e));
  }
}
