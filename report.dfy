/**
 * `generateMockPdfReport`: the credit report laid out on A4 pages. The PDF
 * library is abstracted into a list of pages, each a list of text commands,
 * plus the drawing state (current page, font size, text colour); the
 * report's own vertical cursor `yPos` sits beside them. The body is a
 * sequence of blocks, each reserving room with `checkNewPage` before its
 * texts; a block that would cross `MaxY` starts a new page at the top
 * margin. A final pass stamps "Page i of N" on every page.
 */
module Report {
  import opened Wrappers
  import opened Numbers
  import opened Intake
  import opened Liabilities

  const Margin := 20
  const FooterSpace := 30
  /** The height of the library's default page, A4 portrait, in millimetres. */
  const PageHeight := 297
  /** The lowest baseline body text may use before the footer area. */
  const MaxY := PageHeight - FooterSpace
  /** The centre of the page, where the title and the footers are aligned. */
  const Center := 105
  /** The library's font size before any is set. */
  const DefaultFontSize := 16
  const BodySize := 10
  const HeadingSize := 14
  const TitleSize := 20
  /** The grey of the footer text. */
  const FooterGrey := 100

  /** One `doc.text` call: the text, its position, and the font size and colour then in force. */
  datatype TextCmd = TextCmd(text: string, x: int, y: int, fontSize: nat, color: nat, centered: bool)

  type Page = seq<TextCmd>

  /** A body text without its vertical position, which depends on the page breaks. */
  datatype Line = Line(text: string, x: int, fontSize: nat)

  /** The data the report is built from (`liabilitiesData.data`). */
  datatype ReportData = ReportData(liabilities: seq<Liability>, summary: Summary)

  /** The reasons the report cannot be generated. */
  datatype PdfError =
    /** "Form data not available": no client profile has been stored. */
    | FormDataMissing
    /** Liability `index` has no balance or no minimum payment, and formatting it throws. */
    | MissingAmount(index: nat)

  // ---------------------------------------------------------------------
  // Pages, body lines and footers
  // ---------------------------------------------------------------------

  function LineOf(c: TextCmd): Line {
    Line(c.text, c.x, c.fontSize)
  }

  function PageLines(p: Page): (r: seq<Line>)
    ensures |r| == |p| && forall j :: 0 <= j < |p| ==> r[j] == LineOf(p[j])
  {
    seq(|p|, j requires 0 <= j < |p| => LineOf(p[j]))
  }

  /** The lines of all pages, page after page. */
  function BodyLines(pages: seq<Page>): seq<Line> {
    if pages == [] then [] else BodyLines(pages[..|pages| - 1]) + PageLines(pages[|pages| - 1])
  }

  /** A body command: black, at or below the top margin, and a full line above `MaxY`. */
  predicate BodyCmdOk(c: TextCmd) {
    Margin <= c.y && c.y + BodySize <= MaxY && c.color == 0
  }

  predicate AllBodyOk(pages: seq<Page>) {
    forall i, j :: 0 <= i < |pages| && 0 <= j < |pages[i]| ==> BodyCmdOk(pages[i][j])
  }

  /** The footer `addFooter(n)` draws when the document has `total` pages. */
  function FooterCmds(n: nat, total: nat): (r: Page)
    ensures |r| == 2 && r[0].y == PageHeight - 15 && r[1].y == PageHeight - 20
    ensures r[0].text == "Page " + NatToString(n) + " of " + NatToString(total)
  {
    [TextCmd("Page " + NatToString(n) + " of " + NatToString(total), Center, PageHeight - 15, BodySize, FooterGrey, true),
     TextCmd("Generated by SpinWheel API", Center, PageHeight - 20, BodySize, FooterGrey, true)]
  }

  /** Writing more commands on the last page adds their lines at the end of the body. */
  lemma AppendToLast(pages: seq<Page>, q: Page)
    requires |pages| >= 1
    ensures BodyLines(pages[|pages| - 1 := pages[|pages| - 1] + q]) == BodyLines(pages) + PageLines(q)
  {
    var n := |pages| - 1;
    var pages' := pages[n := pages[n] + q];
    assert pages'[..n] == pages[..n];
    assert PageLines(pages[n] + q) == PageLines(pages[n]) + PageLines(q);
  }

  /** A new empty page adds no line. */
  lemma AddEmptyPage(pages: seq<Page>)
    ensures BodyLines(pages + [[]]) == BodyLines(pages)
  {
    assert (pages + [[]])[..|pages|] == pages;
  }

  // ---------------------------------------------------------------------
  // Where the texts land: blocks, page breaks and the cursor
  // ---------------------------------------------------------------------

  /** A body text written at the cursor, after which the cursor moves down by `advance`. */
  datatype Row = Row(text: string, x: int, fontSize: nat, centered: bool, advance: nat)

  /** `checkNewPage(yPos, space)`, then the texts of the block. */
  datatype Block = Block(space: nat, rows: seq<Row>)

  /** One step of the body: a block, or a bare `yPos += dy`. */
  datatype Step = Place(block: Block) | Skip(dy: nat)

  /** The pages drawn so far and the report's cursor `yPos`. */
  datatype Cursor = Cursor(pages: seq<Page>, yPos: int)

  /** How far the rows move the cursor. */
  function Height(rows: seq<Row>): nat {
    if rows == [] then 0 else Height(rows[..|rows| - 1]) + rows[|rows| - 1].advance
  }

  lemma HeightPrefix(rows: seq<Row>, k: nat)
    requires k < |rows|
    ensures Height(rows[..k + 1]) == Height(rows[..k]) + rows[k].advance
  {
    assert rows[..k + 1][..k] == rows[..k];
  }

  /** The cursor only moves down: the rows before any point take no more than all of them. */
  lemma {:induction false} HeightMonotone(rows: seq<Row>, k: nat)
    requires k <= |rows|
    ensures Height(rows[..k]) <= Height(rows)
    decreases |rows|
  {
    if k < |rows| {
      var init := rows[..|rows| - 1];
      assert init[..k] == rows[..k];
      HeightMonotone(init, k);
    } else {
      assert rows[..k] == rows;
    }
  }

  /** The room a block reserves holds each of its rows, a full body line high, below where the block starts. */
  predicate RoomFor(b: Block) {
    forall k :: 0 <= k < |b.rows| ==> Height(b.rows[..k]) + BodySize <= b.space
  }

  /** It is enough that the last row fits. */
  lemma RoomForLast(b: Block)
    requires |b.rows| > 0 && Height(b.rows[..|b.rows| - 1]) + BodySize <= b.space
    ensures RoomFor(b)
  {
    var init := b.rows[..|b.rows| - 1];
    forall k | 0 <= k < |b.rows|
      ensures Height(b.rows[..k]) + BodySize <= b.space
    {
      assert init[..k] == b.rows[..k];
      HeightMonotone(init, k);
    }
  }

  /** The black commands of rows whose first is written at `top`, each row below the advances of those before it. */
  function Cmds(top: int, rows: seq<Row>): (r: seq<TextCmd>)
    ensures |r| == |rows|
  {
    if rows == [] then []
    else
      var init, last := rows[..|rows| - 1], rows[|rows| - 1];
      Cmds(top, init) + [TextCmd(last.text, last.x, top + Height(init), last.fontSize, 0, last.centered)]
  }

  /** The rows written one after the other on the last page, from the cursor down. */
  function WriteRows(c: Cursor, rows: seq<Row>): (d: Cursor)
    requires |c.pages| >= 1
    ensures |d.pages| == |c.pages|
  {
    var n := |c.pages| - 1;
    Cursor(c.pages[n := c.pages[n] + Cmds(c.yPos, rows)], c.yPos + Height(rows))
  }

  /** `checkNewPage(yPos, space)` as it is meant to work: a new page and the top margin when the space would cross `MaxY`. */
  function Check(c: Cursor, space: nat): Cursor {
    if c.yPos + space > MaxY then Cursor(c.pages + [[]], Margin) else c
  }

  /** One step of the body. */
  function Apply(c: Cursor, s: Step): (d: Cursor)
    requires |c.pages| >= 1
    ensures |c.pages| <= |d.pages| <= |c.pages| + 1
  {
    match s
    case Place(b) => WriteRows(Check(c, b.space), b.rows)
    case Skip(dy) => Cursor(c.pages, c.yPos + dy)
  }

  /** The steps one after the other; each may add at most one page. */
  function Run(c: Cursor, steps: seq<Step>): (d: Cursor)
    requires |c.pages| >= 1
    ensures |c.pages| <= |d.pages| <= |c.pages| + |steps|
  {
    if steps == [] then c else Apply(Run(c, steps[..|steps| - 1]), steps[|steps| - 1])
  }

  /**
   * Where a block lands. When its space fits below the cursor, its texts
   * follow on the last page from the cursor down and the earlier pages are
   * untouched; otherwise exactly one page is added and the whole block is
   * on it, from the top margin down.
   */
  lemma PlaceBreak(c: Cursor, b: Block)
    requires |c.pages| >= 1
    ensures var d, n := Apply(c, Place(b)), |c.pages|;
      if c.yPos + b.space <= MaxY then
        && |d.pages| == n && d.pages[..n - 1] == c.pages[..n - 1]
        && d.pages[n - 1] == c.pages[n - 1] + Cmds(c.yPos, b.rows)
        && d.yPos == c.yPos + Height(b.rows)
      else
        && |d.pages| == n + 1 && d.pages[..n] == c.pages
        && d.pages[n] == Cmds(Margin, b.rows)
        && d.yPos == Margin + Height(b.rows)
  {
    var n := |c.pages|;
    if c.yPos + b.space > MaxY {
      assert (c.pages + [[]])[n := [] + Cmds(Margin, b.rows)][..n] == c.pages;
    }
  }

  /** Row `k` of a block is written at its top plus the advances of the rows before it, in black. */
  lemma {:induction false} CmdsAt(top: int, rows: seq<Row>, k: nat)
    requires k < |rows|
    ensures Cmds(top, rows)[k] ==
      TextCmd(rows[k].text, rows[k].x, top + Height(rows[..k]), rows[k].fontSize, 0, rows[k].centered)
  {
    var init := rows[..|rows| - 1];
    if k < |rows| - 1 {
      CmdsAt(top, init, k);
      assert init[..k] == rows[..k];
    } else {
      assert rows[..k] == init;
    }
  }

  lemma {:induction false} HeightAppend(a: seq<Row>, b: seq<Row>)
    ensures Height(a + b) == Height(a) + Height(b)
  {
    if b == [] {
      assert a + b == a;
    } else {
      var init := b[..|b| - 1];
      HeightAppend(a, init);
      assert (a + b)[..|a + b| - 1] == a + init;
    }
  }

  lemma {:induction false} CmdsAppend(top: int, a: seq<Row>, b: seq<Row>)
    ensures Cmds(top, a + b) == Cmds(top, a) + Cmds(top + Height(a), b)
  {
    if b == [] {
      assert a + b == a;
    } else {
      var init := b[..|b| - 1];
      CmdsAppend(top, a, init);
      HeightAppend(a, init);
      assert (a + b)[..|a + b| - 1] == a + init;
    }
  }

  /** Writing rows and then more rows is writing them all at once. */
  lemma WriteRowsAppend(c: Cursor, a: seq<Row>, b: seq<Row>)
    requires |c.pages| >= 1
    ensures WriteRows(WriteRows(c, a), b) == WriteRows(c, a + b)
  {
    CmdsAppend(c.yPos, a, b);
    HeightAppend(a, b);
    var n := |c.pages| - 1;
    var p := c.pages[n];
    assert p + Cmds(c.yPos, a) + Cmds(c.yPos + Height(a), b) == p + Cmds(c.yPos, a + b);
  }

  lemma WriteRowsNext(c: Cursor, rows: seq<Row>, k: nat)
    requires |c.pages| >= 1 && k < |rows|
    ensures WriteRows(c, rows[..k + 1]) == WriteRows(WriteRows(c, rows[..k]), [rows[k]])
  {
    WriteRowsAppend(c, rows[..k], [rows[k]]);
    assert rows[..k] + [rows[k]] == rows[..k + 1];
  }

  /** Before its first row, a block has written nothing. */
  lemma WriteNothing(c: Cursor, rows: seq<Row>)
    requires |c.pages| >= 1
    ensures WriteRows(c, rows[..0]) == c
  {
    var n := |c.pages| - 1;
    assert rows[..0] == [] && c.pages[n] + [] == c.pages[n];
    assert c.pages[n := c.pages[n]] == c.pages;
  }

  lemma RunSnoc(c: Cursor, steps: seq<Step>, s: Step)
    requires |c.pages| >= 1
    ensures Run(c, steps + [s]) == Apply(Run(c, steps), s)
  {
    assert (steps + [s])[..|steps|] == steps;
  }

  lemma RunSingle(c: Cursor, s: Step)
    requires |c.pages| >= 1
    ensures Run(c, [s]) == Apply(c, s)
  {
    RunSnoc(c, [], s);
  }

  /** Running steps and then more steps is running them all at once. */
  lemma {:induction false} RunAppend(c: Cursor, a: seq<Step>, b: seq<Step>)
    requires |c.pages| >= 1
    ensures Run(c, a + b) == Run(Run(c, a), b)
  {
    if b == [] {
      assert a + b == a;
    } else {
      var init := b[..|b| - 1];
      RunAppend(c, a, init);
      assert (a + b)[..|a + b| - 1] == a + init;
    }
  }

  // ---------------------------------------------------------------------
  // Page breaks never lose, repeat or reorder a text
  // ---------------------------------------------------------------------

  function RowLine(r: Row): Line {
    Line(r.text, r.x, r.fontSize)
  }

  function RowsLines(rows: seq<Row>): (r: seq<Line>)
    ensures |r| == |rows|
  {
    seq(|rows|, k requires 0 <= k < |rows| => RowLine(rows[k]))
  }

  /** The texts of one step. */
  function StepLines(s: Step): seq<Line> {
    match s
    case Place(b) => RowsLines(b.rows)
    case Skip(_) => []
  }

  /** The texts of the steps, in the order they are written. */
  function StepsLines(steps: seq<Step>): seq<Line> {
    if steps == [] then [] else StepsLines(steps[..|steps| - 1]) + StepLines(steps[|steps| - 1])
  }

  lemma CmdsLines(top: int, rows: seq<Row>)
    ensures PageLines(Cmds(top, rows)) == RowsLines(rows)
  {
    forall k | 0 <= k < |rows|
      ensures PageLines(Cmds(top, rows))[k] == RowsLines(rows)[k]
    {
      CmdsAt(top, rows, k);
    }
  }

  /** Written rows add exactly their texts at the end of the body. */
  lemma WriteRowsLines(c: Cursor, rows: seq<Row>)
    requires |c.pages| >= 1
    ensures BodyLines(WriteRows(c, rows).pages) == BodyLines(c.pages) + RowsLines(rows)
  {
    AppendToLast(c.pages, Cmds(c.yPos, rows));
    CmdsLines(c.yPos, rows);
  }

  lemma ApplyLines(c: Cursor, s: Step)
    requires |c.pages| >= 1
    ensures BodyLines(Apply(c, s).pages) == BodyLines(c.pages) + StepLines(s)
  {
    if s.Place? {
      var k := Check(c, s.block.space);
      if c.yPos + s.block.space > MaxY {
        AddEmptyPage(c.pages);
      }
      WriteRowsLines(k, s.block.rows);
    }
  }

  /**
   * Whatever the page breaks, the body read page after page gains exactly
   * the texts of the steps, in order.
   */
  lemma {:induction false} RunLines(c: Cursor, steps: seq<Step>)
    requires |c.pages| >= 1
    ensures BodyLines(Run(c, steps).pages) == BodyLines(c.pages) + StepsLines(steps)
  {
    if steps != [] {
      var init := steps[..|steps| - 1];
      RunLines(c, init);
      ApplyLines(Run(c, init), steps[|steps| - 1]);
    }
  }

  // ---------------------------------------------------------------------
  // What the report says
  // ---------------------------------------------------------------------

  /** `XXX-XX-${ssn.slice(-4)}`: the last four characters, or the whole value when it is shorter. */
  function MaskedSsn(ssn: string): (r: string)
    ensures |r| >= 7 && r[..7] == "XXX-XX-"
    ensures |ssn| >= 4 ==> r[7..] == ssn[|ssn| - 4..]
    ensures |ssn| < 4 ==> r[7..] == ssn
  {
    "XXX-XX-" + (if |ssn| >= 4 then ssn[|ssn| - 4..] else ssn)
  }

  /** The rows whose value is not the empty string, in their order. */
  function NonEmptyRows(rows: seq<(string, string)>): (r: seq<(string, string)>)
    ensures |r| <= |rows|
    ensures forall k :: 0 <= k < |r| ==> r[k].1 != ""
  {
    if rows == [] then []
    else NonEmptyRows(rows[..|rows| - 1]) + (if rows[|rows| - 1].1 == "" then [] else [rows[|rows| - 1]])
  }

  /** `filter(([, value]) => value)`: every kept row has a value and comes from the input, and every row with a value is kept. */
  lemma {:induction false} NonEmptyRowsFilter(rows: seq<(string, string)>)
    ensures forall k :: 0 <= k < |NonEmptyRows(rows)| ==>
      NonEmptyRows(rows)[k].1 != "" && NonEmptyRows(rows)[k] in rows
    ensures forall k :: 0 <= k < |rows| && rows[k].1 != "" ==> rows[k] in NonEmptyRows(rows)
  {
    if rows != [] {
      var n := |rows| - 1;
      var init := rows[..n];
      NonEmptyRowsFilter(init);
      var r, ri := NonEmptyRows(rows), NonEmptyRows(init);
      assert r == ri + (if rows[n].1 == "" then [] else [rows[n]]);
      forall k | 0 <= k < |r|
        ensures r[k].1 != "" && r[k] in rows
      {
        if k < |ri| {
          var j :| 0 <= j < |init| && init[j] == ri[k];
          assert rows[j] == r[k];
        } else {
          assert r[k] == rows[n];
        }
      }
      forall k | 0 <= k < |rows| && rows[k].1 != ""
        ensures rows[k] in r
      {
        if k < n {
          assert init[k] == rows[k];
          var j :| 0 <= j < |ri| && ri[j] == rows[k];
          assert r[j] == rows[k];
        } else {
          assert r[|r| - 1] == rows[k];
        }
      }
    }
  }

  /** The label and value rows of the client block, before the empty ones are dropped; the SSN only ever appears masked. */
  function ClientInfo(p: ClientProfile, dobText: string): (r: seq<(string, string)>)
    ensures |r| == 6
    ensures forall k :: 0 <= k < |r| && r[k].0 == "SSN:" ==> r[k].1 == MaskedSsn(p.ssn)
  {
    [("Full Name:", p.firstName + " " + p.lastName),
     ("Date of Birth:", dobText),
     ("SSN:", MaskedSsn(p.ssn)),
     ("Address:", p.address1),
     ("", p.address2),
     ("City, State, ZIP:", p.city + ", " + p.state + " " + p.zip)]
  }

  /**
   * The client rows the report shows: none with an empty value, and always
   * the full name, the masked SSN and the city line, whatever was left blank.
   */
  function ClientRows(p: ClientProfile, dobText: string): (r: seq<(string, string)>)
    ensures |r| <= 6 && forall k :: 0 <= k < |r| ==> r[k].1 != ""
    ensures ("Full Name:", p.firstName + " " + p.lastName) in r
    ensures ("SSN:", MaskedSsn(p.ssn)) in r
    ensures ("City, State, ZIP:", p.city + ", " + p.state + " " + p.zip) in r
  {
    var info := ClientInfo(p, dobText);
    NonEmptyRowsFilter(info);
    assert info[0].1 != "" && info[2].1 != "" && info[5].1 != "" by {
      assert |info[0].1| >= 1 && |info[2].1| >= 7 && |info[5].1| >= 2;
    }
    NonEmptyRows(info)
  }

  /**
   * The title, the report date, the user id and the client heading, from
   * the top margin of the first page; together they move the cursor by 70.
   */
  function HeaderRows(userId: string, reportDate: string): (r: seq<Row>)
    ensures |r| == 4 && Height(r) == 70
  {
    var rows := [Row("Credit Report", Center, TitleSize, true, 20),
      Row("Report Date: " + reportDate, Margin, BodySize, false, 10),
      Row("User ID: " + userId, Margin, BodySize, false, 20),
      Row("Client Information", Margin, HeadingSize, false, 20)];
    assert rows[..0] == [] && rows[..4] == rows;
    HeightPrefix(rows, 0);
    HeightPrefix(rows, 1);
    HeightPrefix(rows, 2);
    HeightPrefix(rows, 3);
    rows
  }

  /** The first page once the header is written. */
  function HeaderState(userId: string, reportDate: string): Cursor {
    WriteRows(Cursor([[]], Margin), HeaderRows(userId, reportDate))
  }

  /** A client row reserves one line and puts its label at the margin and its value 60 further right on it. */
  function ClientRowBlock(caption: string, value: string, size: nat): (r: Block)
    ensures RoomFor(r)
  {
    var rows := [Row(caption, Margin, size, false, 0), Row(value, Margin + 60, size, false, 10)];
    HeightPrefix(rows, 0);
    assert rows[..0] == [];
    RoomForLast(Block(10, rows));
    Block(10, rows)
  }

  function ClientSteps(rows: seq<(string, string)>, size: nat): (r: seq<Step>)
    ensures |r| == |rows|
  {
    seq(|rows|, k requires 0 <= k < |rows| => Place(ClientRowBlock(rows[k].0, rows[k].1, size)))
  }

  lemma ClientStepsNext(rows: seq<(string, string)>, i: nat, size: nat)
    requires i < |rows|
    ensures ClientSteps(rows[..i + 1], size) == ClientSteps(rows[..i], size) + [Place(ClientRowBlock(rows[i].0, rows[i].1, size))]
  {
  }

  /**
   * The summary reserves 50 for its heading and its three lines, which is
   * room for all four; with the gap after the score it moves the cursor by 60.
   */
  function SummaryBlock(s: Summary): (r: Block)
    ensures RoomFor(r) && Height(r.rows) == 60
  {
    var rows := [Row("Liabilities Summary", Margin, HeadingSize, false, 20),
      Row("Total Debt: $" + FormatAmount(s.totalDebt), Margin, BodySize, false, 10),
      Row("Total Minimum Payments: $" + FormatAmount(s.totalMinimumPayments), Margin, BodySize, false, 10),
      Row("Credit Score: " + IntToString(s.creditScore), Margin, BodySize, false, 20)];
    assert rows[..0] == [] && rows[..4] == rows;
    HeightPrefix(rows, 0);
    HeightPrefix(rows, 1);
    HeightPrefix(rows, 2);
    HeightPrefix(rows, 3);
    RoomForLast(Block(50, rows));
    Block(50, rows)
  }

  /** The "Detailed Liabilities" heading reserves 30, room for it; it moves the cursor by 20. */
  function HeadingBlock(): (r: Block)
    ensures RoomFor(r) && Height(r.rows) == 20
  {
    var rows := [Row("Detailed Liabilities", Margin, HeadingSize, false, 20)];
    HeightPrefix(rows, 0);
    assert rows[..0] == [] && rows[..1] == rows;
    RoomForLast(Block(30, rows));
    Block(30, rows)
  }

  /** A number is truthy when present and non-zero. */
  predicate Truthy(a: Option<int>) {
    a.Some? && a.value != 0
  }

  /** A string is truthy when present and non-empty. */
  predicate TruthyText(a: Option<string>) {
    a.Some? && a.value != ""
  }

  /** A detail row reserves one line of its own and is indented by 20. */
  function DetailStep(text: string): Step {
    Place(Block(10, [Row(text, Margin + 20, BodySize, false, 10)]))
  }

  function OriginalAmountStep(d: Details): seq<Step> {
    if Truthy(d.originalAmount) then [DetailStep("Original Amount: $" + FormatAmount(d.originalAmount.value))] else []
  }

  function LoanTermStep(d: Details): seq<Step> {
    if Truthy(d.loanTerm) then [DetailStep("Loan Term: " + IntToString(d.loanTerm.value) + " months")] else []
  }

  function RemainingTermStep(d: Details): seq<Step> {
    if Truthy(d.remainingTerm) then [DetailStep("Remaining Term: " + IntToString(d.remainingTerm.value) + " months")] else []
  }

  function NextPaymentStep(d: Details): seq<Step> {
    if TruthyText(d.nextPaymentDue) then [DetailStep("Next Payment Due: " + d.nextPaymentDue.value)] else []
  }

  /** The detail rows that are present, in a fixed order, each a one-line block. */
  function DetailSteps(d: Details): (r: seq<Step>)
    ensures |r| <= 4
    ensures |r| == 0 <==>
      !Truthy(d.originalAmount) && !Truthy(d.loanTerm) && !Truthy(d.remainingTerm) && !TruthyText(d.nextPaymentDue)
  {
    OriginalAmountStep(d) + LoanTermStep(d) + RemainingTermStep(d) + NextPaymentStep(d)
  }

  /** The five rows every liability has, ten apart: 50 in all. */
  function FixedRows(l: Liability): (r: seq<Row>)
    requires l.balance.Some? && l.minimumPayment.Some?
    ensures |r| == 5 && Height(r) == 50 && Height(r[..4]) == 40
  {
    var rows := [Row("Type: " + l.kind, Margin, BodySize, false, 10),
      Row("Provider: " + l.provider, Margin, BodySize, false, 10),
      Row("Balance: $" + FormatAmount(l.balance.value), Margin, BodySize, false, 10),
      Row("Minimum Payment: $" + FormatAmount(l.minimumPayment.value), Margin, BodySize, false, 10),
      Row("Status: " + l.status, Margin, BodySize, false, 10)];
    assert rows[..0] == [] && rows[..5] == rows;
    HeightPrefix(rows, 0);
    HeightPrefix(rows, 1);
    HeightPrefix(rows, 2);
    HeightPrefix(rows, 3);
    HeightPrefix(rows, 4);
    rows
  }

  /**
   * A liability reserves 90 when it has details and 60 otherwise, then
   * writes its five rows: the room holds the rows and the gap of 10 after
   * them, and with details the four detail lines that may follow instead.
   */
  function LiabilityBlock(l: Liability): (r: Block)
    requires l.balance.Some? && l.minimumPayment.Some?
    ensures RoomFor(r)
    ensures l.details.Some? ==> r.space == Height(r.rows) + 4 * 10
    ensures l.details.None? ==> r.space == Height(r.rows) + 10
  {
    var b := Block(if l.details.Some? then 90 else 60, FixedRows(l));
    RoomForLast(b);
    b
  }

  function MoreDetails(l: Liability): seq<Step> {
    if l.details.Some? then DetailSteps(l.details.value) else []
  }

  /** One liability: its block, its detail rows, and a gap of 10. */
  function LiabilitySteps(l: Liability): (r: seq<Step>)
    requires l.balance.Some? && l.minimumPayment.Some?
    ensures 2 <= |r| <= 6
  {
    [Place(LiabilityBlock(l))] + MoreDetails(l) + [Skip(10)]
  }

  /** Whether every liability has both amounts the report formats. */
  predicate AmountsPresent(ls: seq<Liability>) {
    forall i :: 0 <= i < |ls| ==> ls[i].balance.Some? && ls[i].minimumPayment.Some?
  }

  function LiabilitiesSteps(ls: seq<Liability>): seq<Step>
    requires AmountsPresent(ls)
  {
    if ls == [] then [] else LiabilitiesSteps(ls[..|ls| - 1]) + LiabilitySteps(ls[|ls| - 1])
  }

  lemma LiabilitiesStepsNext(ls: seq<Liability>, i: nat)
    requires AmountsPresent(ls) && i < |ls|
    ensures AmountsPresent(ls[..i]) && AmountsPresent(ls[..i + 1])
    ensures LiabilitiesSteps(ls[..i + 1]) == LiabilitiesSteps(ls[..i]) + LiabilitySteps(ls[i])
  {
    assert ls[..i + 1][..i] == ls[..i];
  }

  /** The first liability the report cannot format, if any. */
  function FirstMissingAmount(ls: seq<Liability>): (r: Option<nat>)
    ensures r.None? <==> AmountsPresent(ls)
    ensures r.Some? ==> r.value < |ls| && (ls[r.value].balance.None? || ls[r.value].minimumPayment.None?)
    ensures r.Some? ==> AmountsPresent(ls[..r.value])
  {
    if ls == [] then None
    else if ls[0].balance.None? || ls[0].minimumPayment.None? then Some(0)
    else
      match FirstMissingAmount(ls[1..])
      case None => None
      case Some(k) =>
        assert ls[..k + 1] == [ls[0]] + ls[1..][..k];
        Some(k + 1)
  }

  /** Everything between the header and the first liability. */
  function PreambleSteps(p: ClientProfile, dobText: string, s: Summary): seq<Step> {
    ClientSteps(ClientRows(p, dobText), BodySize) + [Skip(10)] + [Place(SummaryBlock(s))] + [Place(HeadingBlock())]
  }

  /** The body after the header: the client rows, a gap, the summary, the heading and the liabilities. */
  function BodySteps(p: ClientProfile, dobText: string, data: ReportData): seq<Step>
    requires AmountsPresent(data.liabilities)
  {
    PreambleSteps(p, dobText, data.summary) + LiabilitiesSteps(data.liabilities)
  }

  /** The pages of the report before the footers, and where the cursor ends. */
  function Layout(userId: string, reportDate: string, p: ClientProfile, dobText: string, data: ReportData): Cursor
    requires AmountsPresent(data.liabilities)
  {
    Run(HeaderState(userId, reportDate), BodySteps(p, dobText, data))
  }

  /** Every body text of the report, in the order it is written; no liability is left out. */
  function ReportLines(userId: string, reportDate: string, p: ClientProfile, dobText: string, data: ReportData): (r: seq<Line>)
    requires AmountsPresent(data.liabilities)
    ensures forall i :: 0 <= i < |data.liabilities| ==> Shows(r, RowsLines(FixedRows(data.liabilities[i])))
  {
    ShowsAfter(RowsLines(HeaderRows(userId, reportDate)), PreambleSteps(p, dobText, data.summary), data.liabilities);
    RowsLines(HeaderRows(userId, reportDate)) + StepsLines(BodySteps(p, dobText, data))
  }

  /** Whatever texts come before the liability steps, every liability's fixed lines follow them. */
  lemma ShowsAfter(head: seq<Line>, pre: seq<Step>, ls: seq<Liability>)
    requires AmountsPresent(ls)
    ensures forall i :: 0 <= i < |ls| ==> Shows(head + StepsLines(pre + LiabilitiesSteps(ls)), RowsLines(FixedRows(ls[i])))
  {
    forall i | 0 <= i < |ls|
      ensures Shows(head + StepsLines(pre + LiabilitiesSteps(ls)), RowsLines(FixedRows(ls[i])))
    {
      var b := LiabilityBlock(ls[i]);
      var k := LiabilityPlaced(ls, i);
      assert (pre + LiabilitiesSteps(ls))[|pre| + k] == Place(b);
      PlacedShown(pre + LiabilitiesSteps(ls), |pre| + k, b);
      ShowsInside(head, StepsLines(pre + LiabilitiesSteps(ls)), [], RowsLines(b.rows));
      assert head + StepsLines(pre + LiabilitiesSteps(ls)) + [] == head + StepsLines(pre + LiabilitiesSteps(ls));
    }
  }

  /** `part` occurs in `lines` from position `j` on. */
  predicate ShowsAt(lines: seq<Line>, part: seq<Line>, j: int) {
    0 <= j <= |lines| - |part| && lines[j..j + |part|] == part
  }

  /** `part` occurs in `lines` as a contiguous run. */
  predicate Shows(lines: seq<Line>, part: seq<Line>) {
    exists j :: 0 <= j <= |lines| - |part| && ShowsAt(lines, part, j)
  }

  lemma ShowsInside(pre: seq<Line>, mid: seq<Line>, post: seq<Line>, part: seq<Line>)
    requires Shows(mid, part)
    ensures Shows(pre + mid + post, part)
  {
    var j :| 0 <= j <= |mid| - |part| && ShowsAt(mid, part, j);
    var all := pre + mid + post;
    assert all[|pre| + j..|pre| + j + |part|] == mid[j..j + |part|] by {
      assert all == pre + (mid + post);
    }
    assert ShowsAt(all, part, |pre| + j);
  }

  /** Every liability's block is one of the liability steps: step `k`. */
  lemma LiabilityPlaced(ls: seq<Liability>, i: nat) returns (k: nat)
    requires AmountsPresent(ls) && i < |ls|
    ensures k < |LiabilitiesSteps(ls)| && LiabilitiesSteps(ls)[k] == Place(LiabilityBlock(ls[i]))
    decreases |ls|, 1
  {
    if i < |ls| - 1 {
      k := EarlierPlaced(ls, i);
    } else {
      k := LastPlaced(ls);
    }
  }

  /** A liability before the last keeps its step, since the last one's steps are only appended. */
  lemma EarlierPlaced(ls: seq<Liability>, i: nat) returns (k: nat)
    requires AmountsPresent(ls) && i < |ls| - 1
    ensures k < |LiabilitiesSteps(ls)| && LiabilitiesSteps(ls)[k] == Place(LiabilityBlock(ls[i]))
    decreases |ls|, 0
  {
    var n := |ls| - 1;
    var init := ls[..n];
    var a := LiabilitiesSteps(init);
    assert LiabilitiesSteps(ls) == a + LiabilitySteps(ls[n]);
    assert init[i] == ls[i];
    k := LiabilityPlaced(init, i);
  }

  /** The last liability's block follows the steps of all the others. */
  lemma LastPlaced(ls: seq<Liability>) returns (k: nat)
    requires AmountsPresent(ls) && |ls| > 0
    ensures k < |LiabilitiesSteps(ls)| && LiabilitiesSteps(ls)[k] == Place(LiabilityBlock(ls[|ls| - 1]))
  {
    var n := |ls| - 1;
    var a, b := LiabilitiesSteps(ls[..n]), LiabilitySteps(ls[n]);
    assert LiabilitiesSteps(ls) == a + b;
    k := |a|;
    assert (a + b)[k] == b[0];
  }

  /** The rows of every block among the steps are written together, in their order. */
  lemma {:induction false} PlacedShown(steps: seq<Step>, k: nat, b: Block)
    requires k < |steps| && steps[k] == Place(b)
    ensures Shows(StepsLines(steps), RowsLines(b.rows))
  {
    var n := |steps| - 1;
    var init := steps[..n];
    var part := RowsLines(b.rows);
    assert StepsLines(steps) == StepsLines(init) + StepLines(steps[n]);
    if k == n {
      assert ShowsAt(part, part, 0) by {
        assert part[0..|part|] == part;
      }
      ShowsInside(StepsLines(init), part, [], part);
      assert StepsLines(init) + part + [] == StepsLines(steps);
    } else {
      assert init[k] == steps[k];
      PlacedShown(init, k, b);
      ShowsInside([], StepsLines(init), StepLines(steps[n]), part);
      assert [] + StepsLines(init) + StepLines(steps[n]) == StepsLines(steps);
    }
  }



  /** From an empty first page, the body holds the first rows' texts and then the steps' texts. */
  lemma FromBlankLines(first: seq<Row>, steps: seq<Step>)
    ensures BodyLines(Run(WriteRows(Cursor([[]], Margin), first), steps).pages) == RowsLines(first) + StepsLines(steps)
  {
    var blank := Cursor([[]], Margin);
    var w := WriteRows(blank, first);
    RunLines(w, steps);
    WriteRowsLines(blank, first);
    assert BodyLines(blank.pages) == [] by {
      assert blank.pages[..0] == [];
    }
    assert BodyLines(w.pages) == RowsLines(first);
  }

  /** The laid-out pages hold exactly the report's texts, in order, however they break. */
  lemma LayoutLines(userId: string, reportDate: string, p: ClientProfile, dobText: string, data: ReportData)
    requires AmountsPresent(data.liabilities)
    ensures BodyLines(Layout(userId, reportDate, p, dobText, data).pages) == ReportLines(userId, reportDate, p, dobText, data)
  {
    FromBlankLines(HeaderRows(userId, reportDate), BodySteps(p, dobText, data));
  }

  // ---------------------------------------------------------------------
  // Which blocks share a page
  // ---------------------------------------------------------------------

  /** A one-line block: it reserves 10 and moves the cursor by 10. */
  predicate OneLine(s: Step) {
    s.Place? && s.block.space == 10 && Height(s.block.rows) == 10
  }

  predicate AllOneLine(steps: seq<Step>) {
    forall k :: 0 <= k < |steps| ==> OneLine(steps[k])
  }

  lemma OneLineDetail(text: string)
    ensures OneLine(DetailStep(text))
  {
    HeightPrefix(DetailStep(text).block.rows, 0);
  }

  lemma OneLineClientRow(caption: string, value: string, size: nat)
    ensures OneLine(Place(ClientRowBlock(caption, value, size)))
  {
    var rows := ClientRowBlock(caption, value, size).rows;
    HeightPrefix(rows, 0);
    HeightPrefix(rows, 1);
    assert rows[..2] == rows;
  }

  /** One-line blocks that all fit below the cursor stay on the last page, ten apart. */
  lemma {:induction false} OneLinesStay(c: Cursor, steps: seq<Step>)
    requires |c.pages| >= 1
    requires AllOneLine(steps)
    requires c.yPos + 10 * |steps| <= MaxY
    ensures |Run(c, steps).pages| == |c.pages|
    ensures Run(c, steps).yPos == c.yPos + 10 * |steps|
  {
    if steps != [] {
      var init := steps[..|steps| - 1];
      OneLinesStay(c, init);
      var last := steps[|steps| - 1];
      assert OneLine(last);
    }
  }

  lemma DetailStepsOneLine(d: Details)
    ensures AllOneLine(DetailSteps(d))
  {
    if Truthy(d.originalAmount) {
      OneLineDetail("Original Amount: $" + FormatAmount(d.originalAmount.value));
    }
    if Truthy(d.loanTerm) {
      OneLineDetail("Loan Term: " + IntToString(d.loanTerm.value) + " months");
    }
    if Truthy(d.remainingTerm) {
      OneLineDetail("Remaining Term: " + IntToString(d.remainingTerm.value) + " months");
    }
    if TruthyText(d.nextPaymentDue) {
      OneLineDetail("Next Payment Due: " + d.nextPaymentDue.value);
    }
  }

  /**
   * A liability never straddles two pages: the room it reserves covers its
   * five rows and its four possible detail rows, so the only page break it
   * can cause is the one before it.
   */
  lemma LiabilityKeepsTogether(c: Cursor, l: Liability)
    requires |c.pages| >= 1 && l.balance.Some? && l.minimumPayment.Some?
    ensures |Run(c, LiabilitySteps(l)).pages| == |Check(c, LiabilityBlock(l).space).pages|
  {
    var b := LiabilityBlock(l);
    var first := [Place(b)];
    RunSingle(c, Place(b));
    var top := Check(c, b.space);
    var m := Run(c, first);
    assert m.yPos == top.yPos + 50 && |m.pages| == |top.pages|;
    var more := MoreDetails(l);
    if l.details.Some? {
      DetailStepsOneLine(l.details.value);
    }
    OneLinesStay(m, more);
    RunAppend(c, first, more);
    RunSnoc(c, first + more, Skip(10));
  }

  /**
   * With a stored profile the client block has five rows, so the cursor is
   * at 230 on the first page after the "Detailed Liabilities" heading. Every
   * liability reserves at least 60, so the first one always starts the
   * second page and leaves the heading alone at the foot of the first.
   */
  lemma HeadingEndsFirstPage(userId: string, reportDate: string, p: ClientProfile, dobText: string, s: Summary,
                             l: Liability)
    requires p.address2 == "" && dobText != "" && p.address1 != ""
    requires l.balance.Some? && l.minimumPayment.Some?
    ensures var c := Run(HeaderState(userId, reportDate), PreambleSteps(p, dobText, s));
      |c.pages| == 1 && c.yPos == 230 && |Apply(c, Place(LiabilityBlock(l))).pages| == 2
  {
    var h := HeaderState(userId, reportDate);
    var rows := ClientRows(p, dobText);
    StoredProfileRows(p, dobText);
    var client := ClientSteps(rows, BodySize);
    forall k | 0 <= k < |client|
      ensures OneLine(client[k])
    {
      OneLineClientRow(rows[k].0, rows[k].1, BodySize);
    }
    OneLinesStay(h, client);
    var c1 := Run(h, client);
    RunSnoc(h, client, Skip(10));
    var c2 := Apply(c1, Skip(10));
    RunSnoc(h, client + [Skip(10)], Place(SummaryBlock(s)));
    PlaceBreak(c2, SummaryBlock(s));
    var c3 := Apply(c2, Place(SummaryBlock(s)));
    RunSnoc(h, client + [Skip(10)] + [Place(SummaryBlock(s))], Place(HeadingBlock()));
    PlaceBreak(c3, HeadingBlock());
    var c4 := Apply(c3, Place(HeadingBlock()));
    assert c4 == Run(h, PreambleSteps(p, dobText, s));
    assert c4.yPos == 230 && |c4.pages| == 1;
    PlaceBreak(c4, LiabilityBlock(l));
  }

  // ---------------------------------------------------------------------
  // The document and the layout cursor
  // ---------------------------------------------------------------------

  class ReportLayout {
    var pages: seq<Page>
    /** The page `doc.text` draws on, counted from 0. */
    var current: nat
    var fontSize: nat
    var color: nat
    var yPos: int

    ghost predicate Valid()
      reads this
    {
      |pages| >= 1 && current < |pages|
    }

    /** While the body is laid out: drawing on the last page in black, every command inside the body area. */
    ghost predicate Laying()
      reads this
    {
      Valid() && current == |pages| - 1 && color == 0 && AllBodyOk(pages) && yPos >= Margin
    }

    /** The pages and the cursor, as a value. */
    ghost function State(): Cursor
      reads this`pages, this`yPos
    {
      Cursor(pages, yPos)
    }

    /** `new jsPDF()`: one empty page. */
    constructor()
      ensures pages == [[]] && current == 0 && fontSize == DefaultFontSize && color == 0
      ensures yPos == Margin
      ensures Laying()
    {
      pages := [[]];
      current := 0;
      fontSize := DefaultFontSize;
      color := 0;
      yPos := Margin;
    }

    method SetFontSize(size: nat)
      modifies this`fontSize
      ensures fontSize == size
    {
      fontSize := size;
    }

    method SetTextColor(c: nat)
      modifies this`color
      ensures color == c
    {
      color := c;
    }

    /** `doc.text`: one command on the current page. */
    method Text(s: string, x: int, y: int, centered: bool)
      requires Valid()
      modifies this`pages
      ensures Valid()
      ensures pages == old(pages)[current := old(pages)[current] + [TextCmd(s, x, y, fontSize, color, centered)]]
    {
      pages := pages[current := pages[current] + [TextCmd(s, x, y, fontSize, color, centered)]];
    }

    /** `doc.addPage()`: a new empty page at the end, which becomes the current one. */
    method AddPage()
      requires Valid()
      modifies this`pages, this`current
      ensures Valid()
      ensures pages == old(pages) + [[]] && current == |old(pages)|
    {
      pages := pages + [[]];
      current := |pages| - 1;
    }

    /** `doc.setPage(n)`, with pages counted from 1. */
    method SetPage(n: nat)
      requires Valid() && 1 <= n <= |pages|
      modifies this`current
      ensures Valid() && current == n - 1
    {
      current := n - 1;
    }

    /** `addFooter(n)`: the page line and the generator line, small and grey, on the current page. */
    method AddFooter(n: nat)
      requires Valid()
      modifies this`pages, this`fontSize, this`color
      ensures Valid()
      ensures pages == old(pages)[current := old(pages)[current] + FooterCmds(n, |old(pages)|)]
      ensures fontSize == BodySize && color == FooterGrey
    {
      var total := |pages|;
      SetFontSize(BodySize);
      SetTextColor(FooterGrey);
      Text("Page " + NatToString(n) + " of " + NatToString(total), Center, PageHeight - 15, true);
      Text("Generated by SpinWheel API", Center, PageHeight - 20, true);
      assert old(pages)[current] + FooterCmds(n, total) ==
        old(pages)[current] + [FooterCmds(n, total)[0]] + [FooterCmds(n, total)[1]];
    }

    /** A body text at height `y` on the last page. */
    method Put(s: string, x: int, y: int, centered: bool)
      requires Laying() && Margin <= y && y + BodySize <= MaxY
      modifies this`pages
      ensures Laying()
      ensures pages == old(pages)[|pages| - 1 := old(pages)[|pages| - 1] + [TextCmd(s, x, y, fontSize, 0, centered)]]
    {
      Text(s, x, y, centered);
      forall i, j | 0 <= i < |pages| && 0 <= j < |pages[i]|
        ensures BodyCmdOk(pages[i][j])
      {
        if i == |pages| - 1 && j == |pages[i]| - 1 {
          assert pages[i][j] == TextCmd(s, x, y, fontSize, 0, centered);
        } else {
          assert pages[i][j] == old(pages)[i][j];
        }
      }
    }

    /**
     * Row `k` of a block whose first row was written at `top`: the text at
     * the cursor, then the cursor moves down by `step`. The rows of the block
     * written so far, including this one, are exactly its first `k + 1`.
     */
    method PutRow(s: string, x: int, centered: bool, step: nat, ghost top: Cursor, ghost rows: seq<Row>, ghost k: nat)
      requires Laying() && yPos + BodySize <= MaxY
      requires |top.pages| >= 1 && k < |rows| && rows[k] == Row(s, x, fontSize, centered, step)
      requires State() == WriteRows(top, rows[..k])
      modifies this`pages, this`yPos
      ensures Laying() && yPos == old(yPos) + step
      ensures State() == WriteRows(top, rows[..k + 1])
    {
      ghost var before := State();
      ghost var row := Row(s, x, fontSize, centered, step);
      assert Cmds(yPos, [row]) == [TextCmd(s, x, yPos, fontSize, 0, centered)] && Height([row]) == step by {
        assert [row][..0] == [];
      }
      Put(s, x, yPos, centered);
      yPos := yPos + step;
      assert State() == WriteRows(before, [row]);
      WriteRowsNext(top, rows, k);
    }

    /**
     * `checkNewPage(yPos, required)` as it is meant to work: when the block
     * fits above `MaxY` nothing changes; otherwise exactly one page is added
     * and the cursor returns to the top margin. Either way the block then fits.
     */
    method CheckNewPage(required: nat)
      requires Laying() && required <= MaxY - Margin
      modifies this`pages, this`current, this`yPos
      ensures Laying()
      ensures State() == Check(old(State()), required)
      ensures yPos + required <= MaxY
    {
      if yPos + required > MaxY {
        AddPage();
        yPos := Margin;
        assert forall i :: 0 <= i < |pages| - 1 ==> pages[i] == old(pages)[i];
      }
    }

    /**
     * `checkNewPage(yPos, required)` as written: after a break it also calls
     * `addFooter` with the new page count, which stamps that page with
     * "Page n of n" and leaves the text grey.
     */
    method CheckNewPageAsWritten(required: int)
      requires Valid() && current == |pages| - 1
      modifies this`pages, this`current, this`yPos, this`fontSize, this`color
      ensures Valid() && current == |pages| - 1
      ensures old(yPos) + required <= MaxY ==>
        pages == old(pages) && yPos == old(yPos) && color == old(color) && fontSize == old(fontSize)
      ensures old(yPos) + required > MaxY ==>
        && pages == old(pages) + [FooterCmds(|old(pages)| + 1, |old(pages)| + 1)]
        && yPos == Margin && color == FooterGrey && fontSize == BodySize
    {
      if yPos + required > MaxY {
        AddPage();
        ghost var blank := pages;
        AddFooter(|pages|);
        assert [] + FooterCmds(|blank|, |blank|) == FooterCmds(|blank|, |blank|);
        assert pages == old(pages) + [FooterCmds(|blank|, |blank|)];
        yPos := Margin;
      }
    }

    /** The final pass: `setPage(i)` and `addFooter(i)` for every page `i`. */
    method StampFooters()
      requires Valid()
      modifies this`pages, this`current, this`fontSize, this`color
      ensures Valid()
      ensures |pages| == |old(pages)|
      ensures forall i :: 0 <= i < |pages| ==> pages[i] == old(pages)[i] + FooterCmds(i + 1, |pages|)
    {
      var total := |pages|;
      for n := 1 to total + 1
        invariant Valid() && |pages| == total
        invariant forall i :: 0 <= i < n - 1 ==> pages[i] == old(pages)[i] + FooterCmds(i + 1, total)
        invariant forall i :: n - 1 <= i < total ==> pages[i] == old(pages)[i]
      {
        SetPage(n);
        AddFooter(n);
      }
    }

    /** The title, the report date, the user id and the client heading, on the first page. */
    method PlaceHeader(userId: string, reportDate: string)
      requires Laying() && pages == [[]] && yPos == Margin
      modifies this`pages, this`yPos, this`fontSize, this`color
      ensures Laying() && fontSize == HeadingSize
      ensures State() == HeaderState(userId, reportDate)
    {
      ghost var top, rows := State(), HeaderRows(userId, reportDate);
      WriteNothing(top, rows);
      SetFontSize(TitleSize);
      SetTextColor(0);
      PutRow("Credit Report", Center, true, 20, top, rows, 0);
      SetFontSize(BodySize);
      PutRow("Report Date: " + reportDate, Margin, false, 10, top, rows, 1);
      PutRow("User ID: " + userId, Margin, false, 20, top, rows, 2);
      SetFontSize(HeadingSize);
      PutRow("Client Information", Margin, false, 20, top, rows, 3);
      assert rows[..4] == rows;
    }

    /** One client row: a check for one line of room, then label and value on that line. */
    method PutClientRow(caption: string, value: string)
      requires Laying()
      modifies this`pages, this`current, this`yPos
      ensures Laying()
      ensures State() == Apply(old(State()), Place(ClientRowBlock(caption, value, fontSize)))
    {
      CheckNewPage(10);
      ghost var top, rows := State(), ClientRowBlock(caption, value, fontSize).rows;
      WriteNothing(top, rows);
      PutRow(caption, Margin, false, 0, top, rows, 0);
      PutRow(value, Margin + 60, false, 10, top, rows, 1);
      assert rows[..2] == rows;
    }

    /** The `clientInfo.forEach` loop. */
    method PlaceClientInfo(rows: seq<(string, string)>)
      requires Laying()
      modifies this`pages, this`current, this`yPos
      ensures Laying()
      ensures State() == Run(old(State()), ClientSteps(rows, fontSize))
    {
      for i := 0 to |rows|
        invariant Laying()
        invariant State() == Run(old(State()), ClientSteps(rows[..i], fontSize))
      {
        PutClientRow(rows[i].0, rows[i].1);
        RunSnoc(old(State()), ClientSteps(rows[..i], fontSize), Place(ClientRowBlock(rows[i].0, rows[i].1, fontSize)));
        ClientStepsNext(rows, i, fontSize);
      }
      assert rows[..|rows|] == rows;
    }

    /** The summary block, which reserves 50. */
    method PlaceSummary(s: Summary)
      requires Laying()
      modifies this`pages, this`current, this`yPos, this`fontSize
      ensures Laying() && fontSize == BodySize
      ensures State() == Apply(old(State()), Place(SummaryBlock(s)))
    {
      CheckNewPage(50);
      PutSummaryRows(s);
    }

    /** The summary heading and its three lines, from the cursor down. */
    method PutSummaryRows(s: Summary)
      requires Laying() && yPos + 50 <= MaxY
      modifies this`pages, this`yPos, this`fontSize
      ensures Laying() && fontSize == BodySize
      ensures State() == WriteRows(old(State()), SummaryBlock(s).rows)
    {
      ghost var top, rows := State(), SummaryBlock(s).rows;
      WriteNothing(top, rows);
      SetFontSize(HeadingSize);
      PutRow("Liabilities Summary", Margin, false, 20, top, rows, 0);
      SetFontSize(BodySize);
      PutRow("Total Debt: $" + FormatAmount(s.totalDebt), Margin, false, 10, top, rows, 1);
      PutRow("Total Minimum Payments: $" + FormatAmount(s.totalMinimumPayments), Margin, false, 10, top, rows, 2);
      PutRow("Credit Score: " + IntToString(s.creditScore), Margin, false, 20, top, rows, 3);
      assert rows[..4] == rows;
    }

    /** The "Detailed Liabilities" heading, which reserves 30. */
    method PlaceLiabilitiesHeading()
      requires Laying()
      modifies this`pages, this`current, this`yPos, this`fontSize
      ensures Laying() && fontSize == HeadingSize
      ensures State() == Apply(old(State()), Place(HeadingBlock()))
    {
      CheckNewPage(30);
      ghost var top, rows := State(), HeadingBlock().rows;
      WriteNothing(top, rows);
      SetFontSize(HeadingSize);
      PutRow("Detailed Liabilities", Margin, false, 20, top, rows, 0);
      assert rows[..1] == rows;
    }

    /** One indented detail row, on a new page when the current one is full. */
    method PutDetail(s: string)
      requires Laying() && fontSize == BodySize
      modifies this`pages, this`current, this`yPos
      ensures Laying()
      ensures State() == Apply(old(State()), DetailStep(s))
    {
      CheckNewPage(10);
      ghost var top, rows := State(), DetailStep(s).block.rows;
      WriteNothing(top, rows);
      PutRow(s, Margin + 20, false, 10, top, rows, 0);
      assert rows[..1] == rows;
    }

    /** The detail rows of one liability: each present one checks for room and is indented. */
    method PlaceDetails(d: Details)
      requires Laying() && fontSize == BodySize
      modifies this`pages, this`current, this`yPos
      ensures Laying()
      ensures State() == Run(old(State()), DetailSteps(d))
    {
      ghost var c0 := State();
      if Truthy(d.originalAmount) {
        PutDetail("Original Amount: $" + FormatAmount(d.originalAmount.value));
        RunSingle(c0, DetailStep("Original Amount: $" + FormatAmount(d.originalAmount.value)));
      }
      ghost var c1 := State();
      if Truthy(d.loanTerm) {
        PutDetail("Loan Term: " + IntToString(d.loanTerm.value) + " months");
        RunSingle(c1, DetailStep("Loan Term: " + IntToString(d.loanTerm.value) + " months"));
      }
      ghost var c2 := State();
      if Truthy(d.remainingTerm) {
        PutDetail("Remaining Term: " + IntToString(d.remainingTerm.value) + " months");
        RunSingle(c2, DetailStep("Remaining Term: " + IntToString(d.remainingTerm.value) + " months"));
      }
      ghost var c3 := State();
      if TruthyText(d.nextPaymentDue) {
        PutDetail("Next Payment Due: " + d.nextPaymentDue.value);
        RunSingle(c3, DetailStep("Next Payment Due: " + d.nextPaymentDue.value));
      }
      ghost var a, b, c, e := OriginalAmountStep(d), LoanTermStep(d), RemainingTermStep(d), NextPaymentStep(d);
      RunAppend(c0, a, b);
      RunAppend(c0, a + b, c);
      RunAppend(c0, a + b + c, e);
    }

    /** The five fixed rows of a liability, ten apart. */
    method PlaceFixedRows(l: Liability)
      requires Laying() && fontSize == BodySize && yPos + 50 <= MaxY
      requires l.balance.Some? && l.minimumPayment.Some?
      modifies this`pages, this`yPos
      ensures Laying()
      ensures State() == WriteRows(old(State()), FixedRows(l))
    {
      ghost var top, rows := State(), FixedRows(l);
      WriteNothing(top, rows);
      PutRow("Type: " + l.kind, Margin, false, 10, top, rows, 0);
      PutRow("Provider: " + l.provider, Margin, false, 10, top, rows, 1);
      PutRow("Balance: $" + FormatAmount(l.balance.value), Margin, false, 10, top, rows, 2);
      PutRow("Minimum Payment: $" + FormatAmount(l.minimumPayment.value), Margin, false, 10, top, rows, 3);
      PutRow("Status: " + l.status, Margin, false, 10, top, rows, 4);
      assert rows[..5] == rows;
    }

    /** One liability: room for 90 when it has details and 60 otherwise, five rows, the details, a gap. */
    method PlaceLiability(l: Liability)
      requires Laying() && l.balance.Some? && l.minimumPayment.Some?
      modifies this`pages, this`current, this`yPos, this`fontSize
      ensures Laying() && fontSize == BodySize
      ensures State() == Run(old(State()), LiabilitySteps(l))
    {
      ghost var c0 := State();
      var space := if l.details.Some? then 90 else 60;
      CheckNewPage(space);
      SetFontSize(BodySize);
      PlaceFixedRows(l);
      ghost var first := [Place(LiabilityBlock(l))];
      RunSingle(c0, Place(LiabilityBlock(l)));
      ghost var c1 := State();
      if l.details.Some? {
        PlaceDetails(l.details.value);
      }
      ghost var c2 := State();
      yPos := yPos + 10;
      RunAppend(c0, first, MoreDetails(l));
      RunSnoc(c0, first + MoreDetails(l), Skip(10));
    }

    /** The client rows in body size, a gap of 10, the summary and the liabilities heading. */
    method PlacePreamble(p: ClientProfile, dobText: string, s: Summary)
      requires Laying()
      modifies this`pages, this`current, this`yPos, this`fontSize
      ensures Laying()
      ensures State() == Run(old(State()), PreambleSteps(p, dobText, s))
    {
      ghost var c0 := State();
      SetFontSize(BodySize);
      var rows := ClientRows(p, dobText);
      PlaceClientInfo(rows);
      ghost var client := ClientSteps(rows, BodySize);
      ghost var c1 := State();
      yPos := yPos + 10;
      ghost var c2 := State();
      assert c2 == Apply(c1, Skip(10));
      RunSnoc(c0, client, Skip(10));
      PlaceSummary(s);
      ghost var c3 := State();
      RunSnoc(c0, client + [Skip(10)], Place(SummaryBlock(s)));
      assert c3 == Run(c0, client + [Skip(10)] + [Place(SummaryBlock(s))]);
      PlaceLiabilitiesHeading();
      RunSnoc(c0, client + [Skip(10)] + [Place(SummaryBlock(s))], Place(HeadingBlock()));
    }

    /** The `data.liabilities.forEach` loop. */
    method PlaceLiabilities(ls: seq<Liability>)
      requires Laying() && AmountsPresent(ls)
      modifies this`pages, this`current, this`yPos, this`fontSize
      ensures Laying()
      ensures State() == Run(old(State()), LiabilitiesSteps(ls))
    {
      for i := 0 to |ls|
        invariant Laying()
        invariant AmountsPresent(ls[..i])
        invariant State() == Run(old(State()), LiabilitiesSteps(ls[..i]))
      {
        PlaceLiability(ls[i]);
        LiabilitiesStepsNext(ls, i);
        RunAppend(old(State()), LiabilitiesSteps(ls[..i]), LiabilitySteps(ls[i]));
      }
      assert ls[..|ls|] == ls;
    }
  }

  // ---------------------------------------------------------------------
  // The whole report
  // ---------------------------------------------------------------------

  /** Every page ends with its own "Page i of N" footer pair, N being the final page count. */
  predicate Stamped(pages: seq<Page>) {
    && |pages| >= 1
    && forall i :: 0 <= i < |pages| ==>
         |pages[i]| >= 2 && pages[i][|pages[i]| - 2..] == FooterCmds(i + 1, |pages|)
  }

  /** The pages without their footers. */
  function Bodies(pages: seq<Page>): (r: seq<Page>)
    requires Stamped(pages)
    ensures |r| == |pages| && forall i :: 0 <= i < |pages| ==> r[i] == pages[i][..|pages[i]| - 2]
  {
    seq(|pages|, i requires 0 <= i < |pages| && Stamped(pages) => pages[i][..|pages[i]| - 2])
  }

  /** Stamping a footer pair onto each page leaves the bodies recoverable. */
  lemma StampedBodies(body: seq<Page>, pages: seq<Page>)
    requires |pages| == |body| >= 1
    requires forall i :: 0 <= i < |pages| ==> pages[i] == body[i] + FooterCmds(i + 1, |pages|)
    ensures Stamped(pages) && Bodies(pages) == body
  {
    forall i | 0 <= i < |pages|
      ensures |pages[i]| >= 2 && pages[i][|pages[i]| - 2..] == FooterCmds(i + 1, |pages|)
      ensures pages[i][..|pages[i]| - 2] == body[i]
    {
      assert pages[i] == body[i] + FooterCmds(i + 1, |pages|);
    }
  }

  /**
   * `generateMockPdfReport(userId, liabilitiesData)`, with the date strings
   * the locale formats supplied by the caller and `checkNewPage` as it is
   * meant to work. It fails without a stored client profile or when a
   * liability lacks an amount. Otherwise the pages without their footers
   * are exactly the layout of the report's blocks, every page carries its
   * own footer, every body text is black and inside the body area, and the
   * body, read page after page, is exactly the report's texts.
   */
  method GenerateMockPdfReport(userId: string, reportDate: string, stored: Option<ClientProfile>, dobText: string,
                               data: ReportData)
    returns (r: Result<seq<Page>, PdfError>)
    ensures stored.None? ==> r == Failure(FormDataMissing)
    ensures stored.Some? && !AmountsPresent(data.liabilities) ==>
      r == Failure(MissingAmount(FirstMissingAmount(data.liabilities).value))
    ensures stored.Some? && AmountsPresent(data.liabilities) ==> r.Success?
    ensures r.Success? ==> Stamped(r.value) && AllBodyOk(Bodies(r.value))
    ensures r.Success? ==>
      && stored.Some? && AmountsPresent(data.liabilities)
      && Bodies(r.value) == Layout(userId, reportDate, stored.value, dobText, data).pages
      && BodyLines(Bodies(r.value)) == ReportLines(userId, reportDate, stored.value, dobText, data)
  {
    if stored.None? {
      return Failure(FormDataMissing);
    }
    var missing := FirstMissingAmount(data.liabilities);
    if missing.Some? {
      return Failure(MissingAmount(missing.value));
    }
    var doc := new ReportLayout();
    doc.PlaceHeader(userId, reportDate);
    ghost var h := doc.State();
    doc.PlacePreamble(stored.value, dobText, data.summary);
    doc.PlaceLiabilities(data.liabilities);
    RunAppend(h, PreambleSteps(stored.value, dobText, data.summary), LiabilitiesSteps(data.liabilities));
    ghost var body := doc.pages;
    assert body == Layout(userId, reportDate, stored.value, dobText, data).pages;
    LayoutLines(userId, reportDate, stored.value, dobText, data);
    doc.StampFooters();
    StampedBodies(body, doc.pages);
    r := Success(doc.pages);
  }

  // ---------------------------------------------------------------------
  // The inline footer of the page-break check
  // ---------------------------------------------------------------------

  /**
   * With `checkNewPage` as written, a page started in the middle of the
   * report is stamped twice: once with "Page 2 of 2" when it is added, and
   * again with "Page 2 of 3" by the final pass once a third page exists.
   */
  method AsWrittenBreaks() returns (pages: seq<Page>)
    ensures |pages| == 3
    ensures pages[1] == FooterCmds(2, 2) + FooterCmds(2, 3)
    ensures pages[2] == FooterCmds(3, 3) + FooterCmds(3, 3)
  {
    var doc := new ReportLayout();
    doc.yPos := MaxY;
    doc.CheckNewPageAsWritten(BodySize);
    doc.yPos := MaxY;
    doc.CheckNewPageAsWritten(BodySize);
    doc.StampFooters();
    pages := doc.pages;
  }

  /** Two footers of the same page disagree about the page count whenever more pages follow it. */
  lemma FooterClash(k: nat, n: nat)
    requires 1 <= k < n
    ensures FooterCmds(k, k)[0].text != FooterCmds(k, n)[0].text
  {
    var prefix := "Page " + NatToString(k) + " of ";
    var a := prefix + NatToString(k);
    var b := prefix + NatToString(n);
    if a == b {
      assert a[|prefix|..] == NatToString(k);
      assert b[|prefix|..] == NatToString(n);
      NatToStringInjective(k, n);
    }
  }

  // ---------------------------------------------------------------------
  // The client block
  // ---------------------------------------------------------------------

  /** `"123-45-6789"` is shown as `"XXX-XX-6789"`: the dashes count among the last four characters. */
  lemma MaskedSsnExample()
    ensures MaskedSsn("123-45-6789") == "XXX-XX-6789"
    ensures MaskedSsn("123456789") == "XXX-XX-6789"
  {
  }

  /** Of a stored SSN, at most its last four characters reach the report. */
  lemma MaskedSsnHidesPrefix(ssn: string, other: string)
    requires |ssn| >= 4 && |other| >= 4 && ssn[|ssn| - 4..] == other[|other| - 4..]
    ensures MaskedSsn(ssn) == MaskedSsn(other)
  {
  }

  /**
   * A stored profile has an empty second address line, so its row is
   * dropped; with a date of birth present the block is the other five rows
   * in order.
   */
  lemma StoredProfileRows(p: ClientProfile, dobText: string)
    requires p.address2 == "" && dobText != "" && p.address1 != ""
    ensures ClientRows(p, dobText) ==
      [("Full Name:", p.firstName + " " + p.lastName),
       ("Date of Birth:", dobText),
       ("SSN:", MaskedSsn(p.ssn)),
       ("Address:", p.address1),
       ("City, State, ZIP:", p.city + ", " + p.state + " " + p.zip)]
  {
    var rows := ClientInfo(p, dobText);
    assert |rows[0].1| >= 1 && |rows[2].1| >= 7 && |rows[5].1| >= 2;
    DropFifthRow(rows);
  }

  /** Six rows of which only the fifth has an empty value keep the other five. */
  lemma DropFifthRow(rows: seq<(string, string)>)
    requires |rows| == 6 && rows[4].1 == ""
    requires rows[0].1 != "" && rows[1].1 != "" && rows[2].1 != "" && rows[3].1 != "" && rows[5].1 != ""
    ensures NonEmptyRows(rows) == [rows[0], rows[1], rows[2], rows[3], rows[5]]
  {
    NonEmptyRowsStep(rows, 0);
    NonEmptyRowsStep(rows, 1);
    NonEmptyRowsStep(rows, 2);
    NonEmptyRowsStep(rows, 3);
    NonEmptyRowsStep(rows, 4);
    NonEmptyRowsStep(rows, 5);
    assert rows[..0] == [] && rows[..6] == rows;
  }

  lemma NonEmptyRowsStep(rows: seq<(string, string)>, i: nat)
    requires i < |rows|
    ensures NonEmptyRows(rows[..i + 1]) == NonEmptyRows(rows[..i]) + (if rows[i].1 == "" then [] else [rows[i]])
  {
    assert rows[..i + 1][..i] == rows[..i];
  }
}
