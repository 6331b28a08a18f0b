/** The seller's payouts page of client/src/pages/seller/PayoutsAnalytics.js:
    the payout-request guard and the downloadable statement. */
module PayoutsAnalytics {
  import opened Values
  import Text

  /** A payout; `payMethod` is the record's `method`. */
  datatype Payout = Payout(
    id: string, date: string, amount: int, status: string, payMethod: string, bank: string,
    reference: string, period: string, currency: string)

  /** The figures of the `analytics` summary the statement repeats. */
  datatype Analytics = Analytics(totalRevenue: int, totalCommission: int, totalPayouts: int, pendingPayout: int)

  datatype DateRange = DateRange(startDate: string, endDate: string)

  /** `handleRequestPayout(amount)`: the confirmation for `amount` is shown
      for a positive amount only; otherwise nothing happens. */
  function HandleRequestPayout(amount: int): (alert: Option<int>)
    ensures alert.Some? <==> amount > 0
    ensures alert.Some? ==> alert.value == amount
  {
    if amount > 0 then Some(amount) else None
  }

  /** A payout's row: id, date, amount, status, method, bank, reference. */
  function PayoutRow(p: Payout): (row: seq<string>)
    ensures |row| == 7
  {
    [p.id, p.date, Text.ShowInt(p.amount), p.status, p.payMethod, p.bank, p.reference]
  }

  /** The rows of the statement: title, period, blank, column header, one
      row per payout, blank, "Summary" and four summary figures. */
  function StatementRows(range: DateRange, payouts: seq<Payout>, a: Analytics): (rows: seq<seq<string>>)
    ensures |rows| == |payouts| + 10
    ensures forall i :: 0 <= i < |payouts| ==> rows[4 + i] == PayoutRow(payouts[i])
  {
    HeadRows(range) + PayoutRows(payouts) + SummaryRows(a)
  }

  /** The statement's title line, "Payout Statement Report - Kolkata, West
      Bengal", kept as its two halves. */
  const Title := "Payout Statement Report - " + "Kolkata, West Bengal"

  function HeadRows(range: DateRange): (rows: seq<seq<string>>)
    ensures |rows| == 4
  {
    [[Title],
     ["Period:", range.startDate + " to " + range.endDate],
     [""],
     ["Payout ID", "Date", "Amount (₹)", "Status", "Method", "Bank", "Reference"]]
  }

  function PayoutRows(payouts: seq<Payout>): (rows: seq<seq<string>>)
    ensures |rows| == |payouts|
    ensures forall i :: 0 <= i < |payouts| ==> rows[i] == PayoutRow(payouts[i])
  {
    seq(|payouts|, i requires 0 <= i < |payouts| => PayoutRow(payouts[i]))
  }

  function SummaryRows(a: Analytics): (rows: seq<seq<string>>)
    ensures |rows| == 6
  {
    [[""],
     ["Summary"],
     ["Total Revenue (₹)", Text.ShowInt(a.totalRevenue)],
     ["Commission (₹)", Text.ShowInt(a.totalCommission)],
     ["Total Payouts (₹)", Text.ShowInt(a.totalPayouts)],
     ["Pending Payout (₹)", Text.ShowInt(a.pendingPayout)]]
  }

  /** `handleDownloadStatement()`: the statement's text. */
  function Statement(range: DateRange, payouts: seq<Payout>, a: Analytics): string
  {
    Text.CsvText(StatementRows(range, payouts, a))
  }

  /** The text fields of a payout hold no line break. */
  predicate NoBreaks(p: Payout)
  {
    forall j :: 0 <= j < 7 && j != 2 ==> Text.Count('\n', PayoutRow(p)[j]) == 0
  }

  /** No cell of `rows` holds a line break. */
  predicate RowsPlain(rows: seq<seq<string>>)
  {
    forall i, j :: 0 <= i < |rows| && 0 <= j < |rows[i]| ==> Text.Count('\n', rows[i][j]) == 0
  }

  /** With no line break inside a date or payout field, the statement has
      exactly `payouts.length + 10` lines. */
  lemma StatementLines(range: DateRange, payouts: seq<Payout>, a: Analytics)
    requires Text.Count('\n', range.startDate) == 0 && Text.Count('\n', range.endDate) == 0
    requires forall i :: 0 <= i < |payouts| ==> NoBreaks(payouts[i])
    ensures Text.Count('\n', Statement(range, payouts, a)) + 1 == |payouts| + 10
  {
    HeadPlain(range);
    BodyPlain(payouts);
    SummaryPlain(a);
    var h, b, t := HeadRows(range), PayoutRows(payouts), SummaryRows(a);
    assert RowsPlain(h + b + t) by {
      forall i, j | 0 <= i < |h + b + t| && 0 <= j < |(h + b + t)[i]|
        ensures Text.Count('\n', (h + b + t)[i][j]) == 0
      {
        if i < |h| {
          assert (h + b + t)[i] == h[i];
        } else if i < |h| + |b| {
          assert (h + b + t)[i] == b[i - |h|];
        } else {
          assert (h + b + t)[i] == t[i - |h| - |b|];
        }
      }
    }
    Text.CsvLines(h + b + t);
  }

  /** No field of `row` holds a line break. */
  predicate CellsPlain(row: seq<string>)
  {
    forall j :: 0 <= j < |row| ==> Text.Count('\n', row[j]) == 0
  }

  lemma RowsPlainByRow(rows: seq<seq<string>>)
    requires forall i :: 0 <= i < |rows| ==> CellsPlain(rows[i])
    ensures RowsPlain(rows)
  {
  }

  /** The characters of `s` include no line break. */
  predicate NoBreakChar(s: string)
  {
    '\n' !in s
  }

  lemma HeadPlain(range: DateRange)
    requires Text.Count('\n', range.startDate) == 0 && Text.Count('\n', range.endDate) == 0
    ensures RowsPlain(HeadRows(range))
  {
    var rows := HeadRows(range);
    HeadTexts();
    TitlePlain("Payout Statement Report - ", "Kolkata, West Bengal");
    PeriodPlain("Period:", range.startDate, " to ", range.endDate);
    CellPlain("");
    HeaderPlain("Payout ID", "Date", "Amount (₹)", "Status", "Method", "Bank", "Reference");
    RowsPlainByRow(rows);
  }

  lemma HeadTexts()
    ensures NoBreakChar("Payout Statement Report - ") && NoBreakChar("Kolkata, West Bengal")
    ensures NoBreakChar("Period:") && NoBreakChar(" to ") && NoBreakChar("")
    ensures NoBreakChar("Payout ID") && NoBreakChar("Date") && NoBreakChar("Amount (₹)")
    ensures NoBreakChar("Status") && NoBreakChar("Method") && NoBreakChar("Bank") && NoBreakChar("Reference")
  {
    TitleTexts();
    ColumnTexts();
  }

  lemma TitleTexts()
    ensures NoBreakChar("Payout Statement Report - ") && NoBreakChar("Kolkata, West Bengal")
    ensures NoBreakChar("Period:") && NoBreakChar(" to ") && NoBreakChar("")
  {
  }

  lemma ColumnTexts()
    ensures NoBreakChar("Payout ID") && NoBreakChar("Date") && NoBreakChar("Amount (₹)")
    ensures NoBreakChar("Status") && NoBreakChar("Method") && NoBreakChar("Bank") && NoBreakChar("Reference")
  {
  }

  lemma SummaryTexts()
    ensures NoBreakChar("") && NoBreakChar("Summary")
    ensures NoBreakChar("Total Revenue (₹)") && NoBreakChar("Commission (₹)")
    ensures NoBreakChar("Total Payouts (₹)") && NoBreakChar("Pending Payout (₹)")
  {
  }

  lemma CellPlain(s: string)
    requires NoBreakChar(s)
    ensures CellsPlain([s])
  {
    Text.NoCount('\n', s);
  }

  lemma TitlePlain(a: string, b: string)
    requires NoBreakChar(a) && NoBreakChar(b)
    ensures CellsPlain([a + b])
  {
    Text.NoCount('\n', a + b);
  }

  /** The period row: a caption, then the two dates joined by a separator. */
  lemma PeriodPlain(caption: string, start: string, sep: string, end: string)
    requires NoBreakChar(caption) && NoBreakChar(sep)
    requires Text.Count('\n', start) == 0 && Text.Count('\n', end) == 0
    ensures CellsPlain([caption, start + sep + end])
  {
    Text.NoCount('\n', caption);
    Text.NoCount('\n', sep);
    Text.CountAppend('\n', start, sep);
    Text.CountAppend('\n', start + sep, end);
  }

  lemma HeaderPlain(a: string, b: string, c: string, d: string, e: string, f: string, g: string)
    requires NoBreakChar(a) && NoBreakChar(b) && NoBreakChar(c) && NoBreakChar(d)
    requires NoBreakChar(e) && NoBreakChar(f) && NoBreakChar(g)
    ensures CellsPlain([a, b, c, d, e, f, g])
  {
    Text.NoCount('\n', a);
    Text.NoCount('\n', b);
    Text.NoCount('\n', c);
    Text.NoCount('\n', d);
    Text.NoCount('\n', e);
    Text.NoCount('\n', f);
    Text.NoCount('\n', g);
  }

  lemma BodyPlain(payouts: seq<Payout>)
    requires forall i :: 0 <= i < |payouts| ==> NoBreaks(payouts[i])
    ensures RowsPlain(PayoutRows(payouts))
  {
    forall i | 0 <= i < |payouts| {
      Text.ShowIntPlain(payouts[i].amount);
    }
  }

  /** A caption that holds no line break beside a rendered number. */
  lemma FigurePlain(caption: string, n: int)
    requires NoBreakChar(caption)
    ensures CellsPlain([caption, Text.ShowInt(n)])
  {
    Text.NoCount('\n', caption);
    Text.ShowIntPlain(n);
  }

  lemma SummaryPlain(a: Analytics)
    ensures RowsPlain(SummaryRows(a))
  {
    var rows := SummaryRows(a);
    SummaryTexts();
    CellPlain("");
    CellPlain("Summary");
    FigurePlain("Total Revenue (₹)", a.totalRevenue);
    FigurePlain("Commission (₹)", a.totalCommission);
    FigurePlain("Total Payouts (₹)", a.totalPayouts);
    FigurePlain("Pending Payout (₹)", a.pendingPayout);
    RowsPlainByRow(rows);
  }

  /** Fields are joined with ',' and never quoted: a payout's line holds six
      separating commas plus every comma inside its fields, so a comma in a
      bank name or reference shifts the columns after it. */
  lemma PayoutLineCommas(p: Payout)
    ensures Text.Count(',', Text.Join(",", PayoutRow(p))) == 6 + Text.CountAll(',', PayoutRow(p))
  {
    Text.JoinCount(',', PayoutRow(p));
  }
}
