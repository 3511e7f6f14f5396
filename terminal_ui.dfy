/**
 * The service grid of the terminal view: padding and aligned cells, the
 * flag-delta and check-letter fragments, the column layout for a given
 * terminal width, and the chunking of the services into blocks of columns.
 *
 * Two things the view computes through libraries are parameters here:
 * `vlen`, the visible width of a string once colour codes are removed
 * (wcswidth), and `fmt`, Python's fixed-point rendering of a float with two
 * decimals, signed or not. Everything built from them is otherwise exact.
 */
module TerminalUi {
  import opened Wrappers
  import opened Text
  import opened OrderedDict
  import opened Scoreboard

  // ----- colours: ANSI escape sequences -----

  const Green := "\U{1b}[92m"
  const Red := "\U{1b}[91m"
  const Yellow := "\U{1b}[93m"
  const Magenta := "\U{1b}[95m"
  const Bold := "\U{1b}[1m"
  const Reset := "\U{1b}[0m"

  /** The colour of a good (true) or bad (false) indication. */
  function Verdict(good: bool): string {
    if good then Green else Red
  }

  /** The plain length of a string: the visible width of colourless text of narrow characters. */
  function PlainWidth(s: string): int {
    |s|
  }

  // ----- padding -----

  /** How many spaces go before the text when `pad` spaces are distributed by `align`. */
  function LeadingPad(pad: nat, align: string): nat {
    if align == "right" then pad else if align == "center" then pad / 2 else 0
  }

  /**
   * pad_str: brings `text` to `width` visible columns with spaces, none
   * when it is already that wide; "right" puts them all before it,
   * "center" splits them with the odd one after, anything else puts them
   * all after it.
   */
  function PadStr(text: string, width: int, align: string, vlen: string -> int): string {
    var pad := Max(0, width - vlen(text));
    if align == "right" then Spaces(pad) + text
    else if align == "center" then Spaces(pad / 2) + text + Spaces(pad - pad / 2)
    else text + Spaces(pad)
  }

  /**
   * Padding adds exactly max(0, width - visible width) spaces and keeps the
   * text whole: the text sits after `LeadingPad` spaces and only spaces
   * follow it.
   */
  lemma PadStrLayout(text: string, width: int, align: string, vlen: string -> int)
    ensures var r := PadStr(text, width, align, vlen);
      var pad := Max(0, width - vlen(text));
      var lead := LeadingPad(pad, align);
      && |r| == |text| + pad
      && r[lead..lead + |text|] == text
      && (forall k :: 0 <= k < lead ==> r[k] == ' ')
      && (forall k :: lead + |text| <= k < |r| ==> r[k] == ' ')
  {
  }

  /** Centring never puts more than one space more on one side than on the other, and the extra one goes after. */
  lemma PadStrCentred(text: string, width: int, vlen: string -> int)
    ensures var r := PadStr(text, width, "center", vlen);
      var before := LeadingPad(Max(0, width - vlen(text)), "center");
      var after := |r| - |text| - before;
      before <= after <= before + 1
  {
    PadStrLayout(text, width, "center", vlen);
  }

  /** Left and right alignment put the text at the start and at the end of the padded string. */
  lemma PadStrEnds(text: string, width: int, align: string, vlen: string -> int)
    ensures align != "right" && align != "center" ==> PadStr(text, width, align, vlen)[..|text|] == text
    ensures align == "right" ==>
      var r := PadStr(text, width, align, vlen); r[|r| - |text|..] == text
  {
    PadStrLayout(text, width, align, vlen);
  }

  /** Measured by plain length, the padded text is exactly `width` long unless it was already longer. */
  lemma PadStrPlainWidth(text: string, width: int, align: string)
    ensures |PadStr(text, width, align, PlainWidth)| == Max(width, |text|)
  {
    PadStrLayout(text, width, align, PlainWidth);
  }

  /**
   * _create_aligned_cell: `left`, then at least one space, then `right`,
   * the gap chosen so that the cell is `width` visible columns when both
   * fit.
   */
  function AlignedCell(left: string, right: string, width: int, vlen: string -> int): string {
    left + Spaces(Max(1, width - vlen(left) - vlen(right))) + right
  }

  /** An aligned cell is the left part, max(1, width - both visible widths) spaces, and the right part. */
  lemma AlignedCellLayout(left: string, right: string, width: int, vlen: string -> int)
    ensures var r := AlignedCell(left, right, width, vlen);
      var gap := Max(1, width - vlen(left) - vlen(right));
      && |r| == |left| + gap + |right|
      && r[..|left|] == left
      && r[|left| + gap..] == right
      && (forall k :: |left| <= k < |left| + gap ==> r[k] == ' ')
  {
  }

  /** Measured by plain length, an aligned cell is `width` long whenever its two halves and one space fit. */
  lemma AlignedCellPlainWidth(left: string, right: string, width: int)
    ensures |AlignedCell(left, right, width, PlainWidth)| == Max(width, |left| + |right| + 1)
  {
    AlignedCellLayout(left, right, width, PlainWidth);
  }

  // ----- fragments -----

  /**
   * _format_flag_delta: nothing for no change; otherwise the signed change
   * in parentheses, in green for a gain and red for a loss.
   */
  function FormatFlagDelta(value: int): (r: string)
    ensures r == "" <==> value == 0
    ensures value != 0 ==>
      && |r| > 2 + |Green| + |Reset| + 1
      && r[..2] == " ("
      && r[2..2 + |Green|] == Verdict(value > 0)
      && r[|r| - |Reset| - 1..] == Reset + ")"
  {
    if value == 0 then "" else " (" + Verdict(value > 0) + SignedIntToString(value) + Reset + ")"
  }

  /** Between the colour and the reset, a flag delta carries its sign and reads back as the value. */
  lemma FormatFlagDeltaReadsBack(value: int)
    requires value != 0
    ensures var r := FormatFlagDelta(value);
      var number := r[2 + |Green|..|r| - |Reset| - 1];
      && ParseInt(number) == value
      && (number[0] == '+' <==> value > 0)
  {
    var r := FormatFlagDelta(value);
    assert r[2 + |Green|..|r| - |Reset| - 1] == SignedIntToString(value);
    SignedIntRoundTrip(value);
  }

  /** One check as its action letter in the colour of its outcome. */
  function CheckLetter(c: CheckDetail): string {
    Verdict(c.ok) + [c.action] + Reset
  }

  /** The coloured letters of the checks, in order. */
  function Letters(checks: seq<CheckDetail>): (r: seq<string>)
    ensures |r| == |checks|
  {
    seq(|checks|, i requires 0 <= i < |checks| => CheckLetter(checks[i]))
  }

  /** The checks' coloured letters separated by single spaces. */
  function CheckLetters(checks: seq<CheckDetail>): string {
    Join(" ", Letters(checks))
  }

  /** No coloured letter contains a space unless its action is one. */
  lemma LettersHaveNoSpace(checks: seq<CheckDetail>)
    requires forall i :: 0 <= i < |checks| ==> checks[i].action != ' '
    ensures forall i, k :: 0 <= i < |Letters(checks)| && 0 <= k < |Letters(checks)[i]| ==> Letters(checks)[i][k] != ' '
  {
    forall i, k | 0 <= i < |checks| && 0 <= k < |Letters(checks)[i]|
      ensures Letters(checks)[i][k] != ' '
    {
      var l := CheckLetter(checks[i]);
      assert l == Verdict(checks[i].ok) + [checks[i].action] + Reset;
      assert k < |Green| || k == |Green| || |Green| < k;
    }
  }

  /**
   * Splitting the joined letters at the spaces gives back each check's
   * coloured letter, in order, provided no action is itself a space.
   */
  lemma CheckLettersSplit(checks: seq<CheckDetail>)
    requires |checks| > 0
    requires forall i :: 0 <= i < |checks| ==> checks[i].action != ' '
    ensures Split(CheckLetters(checks), ' ') == Letters(checks)
    ensures forall i :: 0 <= i < |checks| ==> Split(CheckLetters(checks), ' ')[i] == Verdict(checks[i].ok) + [checks[i].action] + Reset
  {
    LettersHaveNoSpace(checks);
    SplitJoin(' ', Letters(checks));
  }

  /**
   * _get_check_letters: a loop that collects one coloured letter per check
   * and joins them with spaces.
   */
  method GetCheckLetters(checks: seq<CheckDetail>) returns (r: string)
    ensures r == CheckLetters(checks)
    ensures |checks| == 0 ==> r == ""
  {
    var output: seq<string> := [];
    for i := 0 to |checks|
      invariant output == Letters(checks[..i])
    {
      var color := Verdict(checks[i].ok);
      output := output + [color + [checks[i].action] + Reset];
    }
    assert checks[..|checks|] == checks;
    r := Join(" ", output);
  }

  // ----- layout -----

  /** The narrowest a service column may be. */
  const MinColWidth := 32

  /** What goes between two columns of a row. */
  const Separator := " \U{2502} "

  /** The width of the separator. */
  const SepLen := 3

  /** The message shown instead of the grid when not even one column fits. */
  const NarrowMessage := Yellow + "Finestra del terminale troppo stretta per visualizzare i servizi." + Reset

  /** How many columns one row holds: as many column-and-separator pairs as fit, at least one and no more than there are services. */
  function ColsPerRow(termWidth: int, numServices: int): (c: int)
    ensures c >= 1
    ensures numServices >= 1 ==> c <= numServices
  {
    Max(1, Min((termWidth + SepLen) / (MinColWidth + SepLen), numServices))
  }

  /** The width of each column once the row's separators are taken out of the terminal width. */
  function ColWidth(termWidth: int, cols: int): int
    requires cols >= 1
  {
    (termWidth - (cols - 1) * SepLen) / cols
  }

  /** Euclidean division by a positive divisor brackets the dividend. */
  lemma DivBounds(n: int, d: int)
    requires d >= 1
    ensures d * (n / d) <= n < d * (n / d) + d
  {
  }

  /** Multiplying by a non-negative factor keeps an order. */
  lemma MulMonotone(k: int, a: int, b: int)
    requires k >= 0 && a <= b
    ensures k * a <= k * b
  {
  }

  /**
   * On a terminal at least one column wide the layout fits: the columns
   * and their separators take no more than the terminal width, every
   * column is at least the minimum width, one more column of minimum
   * width would not fit when services are left over, and the columns are
   * as wide as they can be.
   */
  lemma {:induction false} LayoutFits(termWidth: int, numServices: int)
    requires termWidth >= MinColWidth && numServices >= 1
    ensures var c := ColsPerRow(termWidth, numServices);
      var w := ColWidth(termWidth, c);
      && 1 <= c <= numServices
      && c * w + (c - 1) * SepLen <= termWidth
      && w >= MinColWidth
      && (c < numServices ==> (c + 1) * MinColWidth + c * SepLen > termWidth)
      && c * (w + 1) + (c - 1) * SepLen > termWidth
  {
    var q := (termWidth + SepLen) / (MinColWidth + SepLen);
    DivBounds(termWidth + SepLen, MinColWidth + SepLen);
    var c := ColsPerRow(termWidth, numServices);
    assert c == Min(q, numServices);
    var num := termWidth - (c - 1) * SepLen;
    var w := num / c;
    assert w == ColWidth(termWidth, c);
    DivBounds(num, c);
    if w < MinColWidth {
      MulMonotone(c, w, MinColWidth - 1);
    }
  }

  // ----- the cells of one service column -----

  /** The two fixed-point renderings of a float the view uses. */
  datatype NumberStyle =
    | Fixed       // `:.2f`, two decimals
    | SignedFixed // `:+.2f`, two decimals, always signed

  /** Renders a float in a style. */
  type Formatter = (NumberStyle, real) -> string

  const UpArrow := '\U{2191}'
  const DownArrow := '\U{2193}'

  /**
   * _format_score_delta: a dash for a change smaller than a thousandth
   * either way; otherwise the signed change, followed by an arrow when
   * asked, in green for a gain and red for a loss.
   */
  function FormatScoreDelta(value: real, withArrow: bool, fmt: Formatter): (r: string)
    ensures r == "-" <==> -0.001 < value < 0.001
    ensures !(-0.001 < value < 0.001) ==>
      var body := fmt(SignedFixed, value) + (if withArrow then [' ', if value > 0.0 then UpArrow else DownArrow] else "");
      && |r| == |Green| + |body| + |Reset|
      && r[..|Green|] == Verdict(value > 0.0)
      && r[|Green|..|r| - |Reset|] == body
      && r[|r| - |Reset|..] == Reset
  {
    if -0.001 < value < 0.001 then "-"
    else
      var color := Verdict(value > 0.0);
      var arrow := if value > 0.0 then UpArrow else DownArrow;
      var r := color + fmt(SignedFixed, value) + (if withArrow then [' ', arrow] else "") + Reset;
      assert r[0] == '\U{1b}';
      r
  }

  const Trophy := "\U{1F3C6} "
  const Star := "\U{2B50} "
  const Swords := "\U{2694}\U{FE0F} "
  const Shield := "\U{1F6E1}\U{FE0F} "
  const Globe := "\U{1F310} "
  const Wrench := "\U{1F527} "

  /** Row 0: the SLA-adjusted score and its change, centred. */
  function HeadlineCell(s: ProcessedService, w: int, vlen: string -> int, fmt: Formatter): string {
    PadStr(Trophy + Reset + fmt(Fixed, s.slaAdjustedScore) + " (" + FormatScoreDelta(s.slaAdjustedScoreDelta, false, fmt) + ")", w, "center", vlen)
  }

  /** Row 1: the service name in bold, centred. */
  function NameCell(name: string, w: int, vlen: string -> int): string {
    PadStr(Bold + name + Reset, w, "center", vlen)
  }

  /** Row 2: the score on the left, its change on the right. */
  function ScoreCell(s: ProcessedService, w: int, vlen: string -> int, fmt: Formatter): string {
    AlignedCell(Star + Reset + fmt(Fixed, s.score), FormatScoreDelta(s.scoreDelta, false, fmt), w, vlen)
  }

  /** Row 3: attack points and stolen flags on the left, their changes on the right. */
  function AttackCell(s: ProcessedService, w: int, vlen: string -> int, fmt: Formatter): string {
    AlignedCell(Swords + Reset + fmt(SignedFixed, s.attackScore) + " (" + IntToString(s.attackFlag) + ")",
                FormatScoreDelta(s.attackScoreDelta, false, fmt) + FormatFlagDelta(s.attackFlagDelta), w, vlen)
  }

  /** Row 4: defence points and lost flags on the left, their changes on the right. */
  function DefenseCell(s: ProcessedService, w: int, vlen: string -> int, fmt: Formatter): string {
    AlignedCell(Shield + Reset + fmt(SignedFixed, s.defenseScore) + " (" + IntToString(s.defenseFlag) + ")",
                FormatScoreDelta(s.defenseScoreDelta, false, fmt) + FormatFlagDelta(s.defenseFlagDelta), w, vlen)
  }

  /** Row 5: the SLA percentage on the left, its change with an arrow on the right. */
  function SlaCell(s: ProcessedService, w: int, vlen: string -> int, fmt: Formatter): string {
    AlignedCell(Globe + Reset + fmt(Fixed, s.sla) + "%", FormatScoreDelta(s.slaDelta, true, fmt), w, vlen)
  }

  /** Row 6: the check letters in brackets, centred. */
  function ChecksCell(s: ProcessedService, w: int, vlen: string -> int): string {
    PadStr(Wrench + "[" + CheckLetters(s.checks) + "]", w, "center", vlen)
  }

  /** The eight cells of one service's column, top to bottom; the last is blank. */
  function ServiceColumn(name: string, s: ProcessedService, w: int, vlen: string -> int, fmt: Formatter): (cells: seq<string>)
    ensures |cells| == 8
    ensures |cells[7]| == Max(w, 0) && forall k :: 0 <= k < |cells[7]| ==> cells[7][k] == ' '
  {
    [HeadlineCell(s, w, vlen, fmt), NameCell(name, w, vlen), ScoreCell(s, w, vlen, fmt), AttackCell(s, w, vlen, fmt),
     DefenseCell(s, w, vlen, fmt), SlaCell(s, w, vlen, fmt), ChecksCell(s, w, vlen), Spaces(w)]
  }

  /** `t` occurs in `s` starting at index `i`. */
  predicate OccursAt(s: string, t: string, i: int) {
    0 <= i <= |s| - |t| && s[i..i + |t|] == t
  }

  /** Measured by plain length, a centred cell is at least as wide as the column. */
  lemma CentredCellWidth(text: string, w: int)
    ensures |PadStr(text, w, "center", PlainWidth)| >= w
  {
    PadStrPlainWidth(text, w, "center");
  }

  /** Measured by plain length, an aligned cell is at least as wide as the column. */
  lemma AlignedCellWidth(left: string, right: string, w: int)
    ensures |AlignedCell(left, right, w, PlainWidth)| >= w
  {
    AlignedCellPlainWidth(left, right, w);
  }

  /** Measured by plain length, no cell of a column is narrower than the column. */
  lemma ServiceColumnWidths(name: string, s: ProcessedService, w: int, fmt: Formatter)
    requires w >= 0
    ensures var cells := ServiceColumn(name, s, w, PlainWidth, fmt);
      forall k :: 0 <= k < 8 ==> |cells[k]| >= w
  {
    CentredCellWidth(Trophy + Reset + fmt(Fixed, s.slaAdjustedScore) + " (" + FormatScoreDelta(s.slaAdjustedScoreDelta, false, fmt) + ")", w);
    CentredCellWidth(Bold + name + Reset, w);
    AlignedCellWidth(Star + Reset + fmt(Fixed, s.score), FormatScoreDelta(s.scoreDelta, false, fmt), w);
    AlignedCellWidth(Swords + Reset + fmt(SignedFixed, s.attackScore) + " (" + IntToString(s.attackFlag) + ")",
                     FormatScoreDelta(s.attackScoreDelta, false, fmt) + FormatFlagDelta(s.attackFlagDelta), w);
    AlignedCellWidth(Shield + Reset + fmt(SignedFixed, s.defenseScore) + " (" + IntToString(s.defenseFlag) + ")",
                     FormatScoreDelta(s.defenseScoreDelta, false, fmt) + FormatFlagDelta(s.defenseFlagDelta), w);
    AlignedCellWidth(Globe + Reset + fmt(Fixed, s.sla) + "%", FormatScoreDelta(s.slaDelta, true, fmt), w);
    CentredCellWidth(Wrench + "[" + CheckLetters(s.checks) + "]", w);
  }

  /** The name row carries the bold service name and the check row the bracketed check letters. */
  lemma ServiceColumnLabels(name: string, s: ProcessedService, w: int, vlen: string -> int, fmt: Formatter)
    ensures var cells := ServiceColumn(name, s, w, vlen, fmt);
      && (exists i :: OccursAt(cells[1], Bold + name + Reset, i))
      && (exists i :: OccursAt(cells[6], Wrench + "[" + CheckLetters(s.checks) + "]", i))
  {
    var cells := ServiceColumn(name, s, w, vlen, fmt);
    var t1 := Bold + name + Reset;
    PadStrLayout(t1, w, "center", vlen);
    var lead1 := LeadingPad(Max(0, w - vlen(t1)), "center");
    assert OccursAt(cells[1], t1, lead1);
    var t6 := Wrench + "[" + CheckLetters(s.checks) + "]";
    PadStrLayout(t6, w, "center", vlen);
    var lead6 := LeadingPad(Max(0, w - vlen(t6)), "center");
    assert OccursAt(cells[6], t6, lead6);
  }

  /** Fills one column: the eight cells appended in order. */
  method FillColumn(name: string, s: ProcessedService, w: int, vlen: string -> int, fmt: Formatter)
    returns (col: seq<string>)
    ensures col == ServiceColumn(name, s, w, vlen, fmt)
  {
    col := [];
    col := col + [HeadlineCell(s, w, vlen, fmt)];
    col := col + [NameCell(name, w, vlen)];
    col := col + [ScoreCell(s, w, vlen, fmt)];
    col := col + [AttackCell(s, w, vlen, fmt)];
    col := col + [DefenseCell(s, w, vlen, fmt)];
    col := col + [SlaCell(s, w, vlen, fmt)];
    var letters := GetCheckLetters(s.checks);
    var checksCell := PadStr(Wrench + "[" + letters + "]", w, "center", vlen);
    assert checksCell == ChecksCell(s, w, vlen);
    col := col + [checksCell];
    col := col + [Spaces(w)];
  }

  /**
   * The inner loop of the layout: one column per service of the chunk,
   * each filled with its eight cells in order.
   */
  method BuildColumns(chunk: seq<(string, ProcessedService)>, w: int, vlen: string -> int, fmt: Formatter)
    returns (columns: seq<seq<string>>)
    ensures |columns| == |chunk|
    ensures forall j :: 0 <= j < |chunk| ==> columns[j] == ServiceColumn(chunk[j].0, chunk[j].1, w, vlen, fmt)
  {
    columns := seq(|chunk|, _ => []);
    for j := 0 to |chunk|
      invariant |columns| == |chunk|
      invariant forall q :: 0 <= q < j ==> columns[q] == ServiceColumn(chunk[q].0, chunk[q].1, w, vlen, fmt)
    {
      var col := FillColumn(chunk[j].0, chunk[j].1, w, vlen, fmt);
      columns := columns[j := col];
    }
  }

  // ----- the rows of one block -----

  /** How many rows a block has: as many cells as its first column. */
  function NumRows(columns: seq<seq<string>>): nat {
    if |columns| > 0 then |columns[0]| else 0
  }

  /** Row `r` of a block: the r-th cell of every column, left to right. */
  function Row(columns: seq<seq<string>>, r: nat): (row: seq<string>)
    requires forall c :: 0 <= c < |columns| ==> r < |columns[c]|
    ensures |row| == |columns|
  {
    seq(|columns|, c requires 0 <= c < |columns| => columns[c][r])
  }

  /** The rule drawn above the third row: a run of box-drawing dashes per column, joined like a row. */
  function RuleLine(numCols: nat, w: int): string {
    Join(Separator, seq(numCols, _ => Repeat('\U{2500}', w)))
  }

  /** The line on which row `r` is printed, once the rule has been put before row 2. */
  function LineOf(r: nat): nat {
    if r < 2 then r else r + 1
  }

  /**
   * `lines` is the block's printout: every column as long as the first,
   * every row joined with the separator on its own line, and the rule on
   * the line before row 2 when there is a row 2.
   */
  ghost predicate RendersRows(lines: seq<string>, columns: seq<seq<string>>, w: int) {
    && (forall c :: 0 <= c < |columns| ==> |columns[c]| == NumRows(columns))
    && |lines| == NumRows(columns) + (if NumRows(columns) > 2 then 1 else 0)
    && (forall r :: 0 <= r < NumRows(columns) ==> lines[LineOf(r)] == Join(Separator, Row(columns, r)))
    && (NumRows(columns) > 2 ==> lines[2] == RuleLine(|columns|, w))
  }

  /** Prints the block row by row, with the rule before row 2. */
  method RowLines(columns: seq<seq<string>>, w: int) returns (lines: seq<string>)
    requires forall c :: 0 <= c < |columns| ==> |columns[c]| == |columns[0]|
    ensures RendersRows(lines, columns, w)
  {
    var numRows := if |columns| > 0 then |columns[0]| else 0;
    lines := [];
    for r := 0 to numRows
      invariant |lines| == r + (if r > 2 then 1 else 0)
      invariant forall q :: 0 <= q < r ==> lines[LineOf(q)] == Join(Separator, Row(columns, q))
      invariant r > 2 ==> lines[2] == RuleLine(|columns|, w)
    {
      if r == 2 {
        var rule := Repeat('\U{2500}', w);
        lines := lines + [Join(Separator, seq(|columns|, _ => rule))];
      }
      var rowContent := seq(|columns|, c requires 0 <= c < |columns| => columns[c][r]);
      lines := lines + [Join(Separator, rowContent)];
    }
  }

  /** `n` copies of one string have `n` times its length. */
  lemma {:induction false} TotalLengthOfCopies(n: nat, s: string)
    ensures TotalLength(seq(n, _ => s)) == n * |s|
  {
    if n > 0 {
      assert seq(n, _ => s)[1..] == seq(n - 1, _ => s);
      TotalLengthOfCopies(n - 1, s);
    }
  }

  /** The rule is as wide as the columns and separators it underlines. */
  lemma RuleLineWidth(numCols: nat, w: int)
    requires numCols >= 1 && w >= 0
    ensures |RuleLine(numCols, w)| == numCols * w + (numCols - 1) * SepLen
  {
    JoinLength(Separator, seq(numCols, _ => Repeat('\U{2500}', w)));
    TotalLengthOfCopies(numCols, Repeat('\U{2500}', w));
  }

  /** On a terminal at least one column wide, the rule of a full row fits in the terminal. */
  lemma RuleLineFits(termWidth: int, numServices: int)
    requires termWidth >= MinColWidth && numServices >= 1
    ensures var c := ColsPerRow(termWidth, numServices);
      |RuleLine(c, ColWidth(termWidth, c))| <= termWidth
  {
    LayoutFits(termWidth, numServices);
    var c := ColsPerRow(termWidth, numServices);
    RuleLineWidth(c, ColWidth(termWidth, c));
  }

  // ----- the service grid -----

  /** One block of the grid: its services, their columns, its printed lines and the divider that follows it, if any. */
  datatype Block = Block(
    items: seq<(string, ProcessedService)>,
    columns: seq<seq<string>>,
    lines: seq<string>,
    divider: Option<string>)

  /** What the view shows for the services. */
  datatype Grid =
    | NoServices
    | TooNarrow(message: string)
    | Blocks(colsPerRow: int, colWidth: int, blocks: seq<Block>)

  /** The double line printed between two blocks, with a blank line on either side. */
  function BlockDivider(termWidth: int): string {
    "\n" + Magenta + Repeat('\U{2550}', termWidth) + Reset + "\n"
  }

  /** The services of each block. */
  function ItemsOf(blocks: seq<Block>): (r: seq<seq<(string, ProcessedService)>>)
    ensures |r| == |blocks|
  {
    seq(|blocks|, b requires 0 <= b < |blocks| => blocks[b].items)
  }

  /** Concatenation of a sequence of sequences. */
  function Flatten<T>(xss: seq<seq<T>>): seq<T> {
    if |xss| == 0 then [] else Flatten(xss[..|xss| - 1]) + xss[|xss| - 1]
  }

  /** A block's columns are its services' columns and its lines are their rows. */
  ghost predicate WellBuilt(b: Block, w: int, vlen: string -> int, fmt: Formatter) {
    && ColumnsOf(b.columns, b.items, w, vlen, fmt)
    && RendersRows(b.lines, b.columns, w)
  }

  /** The columns of the services of `items`. */
  ghost predicate ColumnsOf(columns: seq<seq<string>>, items: seq<(string, ProcessedService)>, w: int, vlen: string -> int, fmt: Formatter) {
    && |columns| == |items|
    && forall j :: 0 <= j < |items| ==> columns[j] == ServiceColumn(items[j].0, items[j].1, w, vlen, fmt)
  }

  /** The name cells of some services, left to right. */
  function NameRow(items: seq<(string, ProcessedService)>, w: int, vlen: string -> int): (r: seq<string>)
    ensures |r| == |items|
  {
    seq(|items|, j requires 0 <= j < |items| => NameCell(items[j].0, w, vlen))
  }

  /** A column's second cell is the service name and its last the blank cell. */
  lemma ServiceColumnRows(name: string, s: ProcessedService, w: int, vlen: string -> int, fmt: Formatter)
    ensures var cells := ServiceColumn(name, s, w, vlen, fmt);
      |cells| == 8 && cells[1] == NameCell(name, w, vlen) && cells[7] == Spaces(w)
  {
  }

  /** In the columns of some services, row 1 holds the names and row 7 is blank. */
  lemma NameAndBlankRows(columns: seq<seq<string>>, items: seq<(string, ProcessedService)>, w: int, vlen: string -> int, fmt: Formatter)
    requires ColumnsOf(columns, items, w, vlen, fmt)
    ensures forall c :: 0 <= c < |columns| ==> |columns[c]| == 8
    ensures Row(columns, 1) == NameRow(items, w, vlen)
    ensures Row(columns, 7) == seq(|items|, _ => Spaces(w))
  {
    forall c | 0 <= c < |columns|
      ensures |columns[c]| == 8 && columns[c][1] == NameCell(items[c].0, w, vlen) && columns[c][7] == Spaces(w)
    {
      ServiceColumnRows(items[c].0, items[c].1, w, vlen, fmt);
    }
  }

  /** A printout of eight rows has nine lines, with the rule third and row 1 second and row 7 last. */
  lemma EightRowLines(lines: seq<string>, columns: seq<seq<string>>, w: int)
    requires RendersRows(lines, columns, w) && NumRows(columns) == 8
    ensures |lines| == 9
    ensures lines[1] == Join(Separator, Row(columns, 1))
    ensures lines[2] == RuleLine(|columns|, w)
    ensures lines[8] == Join(Separator, Row(columns, 7))
  {
    assert LineOf(7) == 8 && LineOf(1) == 1;
  }

  /**
   * A non-empty block prints nine lines: the headline row, the row of
   * service names, the rule, five more rows of cells and a blank row.
   */
  lemma BlockShape(b: Block, w: int, vlen: string -> int, fmt: Formatter)
    requires WellBuilt(b, w, vlen, fmt) && |b.items| > 0
    ensures |b.lines| == 9
    ensures b.lines[1] == Join(Separator, NameRow(b.items, w, vlen))
    ensures b.lines[2] == RuleLine(|b.items|, w)
    ensures b.lines[8] == Join(Separator, seq(|b.items|, _ => Spaces(w)))
  {
    NameAndBlankRows(b.columns, b.items, w, vlen, fmt);
    EightRowLines(b.lines, b.columns, w);
  }

  lemma ItemsOfAppend(blocks: seq<Block>, b: Block)
    ensures Flatten(ItemsOf(blocks + [b])) == Flatten(ItemsOf(blocks)) + b.items
  {
    assert ItemsOf(blocks + [b])[..|blocks|] == ItemsOf(blocks);
  }

  /** One pass of the chunk loop: the services from `i` on, at most `cols` of them, laid out as a block. */
  method ChunkBlock(items: seq<(string, ProcessedService)>, i: nat, cols: int, w: int, termWidth: int,
                    vlen: string -> int, fmt: Formatter)
    returns (block: Block)
    requires i < |items| && cols >= 1
    ensures block.items == items[i..Min(i + cols, |items|)]
    ensures block.divider == if i + cols < |items| then Some(BlockDivider(termWidth)) else None
    ensures WellBuilt(block, w, vlen, fmt)
  {
    var chunk := items[i..Min(i + cols, |items|)];
    var columns := BuildColumns(chunk, w, vlen, fmt);
    var lines := RowLines(columns, w);
    var divider := if i + cols < |items| then Some(BlockDivider(termWidth)) else None;
    block := Block(chunk, columns, lines, divider);
  }

  /**
   * After the chunk loop has reached index `i`: the blocks hold the
   * first `i` services in order (all of them once `i` passes the end),
   * every block holds 1 to `cols` of them, every block is full while
   * services remain, and every block is followed by a divider except a
   * last one after which nothing remains.
   */
  ghost predicate ChunkedUpTo(blocks: seq<Block>, items: seq<(string, ProcessedService)>, i: int, cols: int, termWidth: int) {
    && 0 <= i
    && (i > 0 <==> |blocks| > 0)
    && Flatten(ItemsOf(blocks)) == items[..Min(i, |items|)]
    && (forall b :: 0 <= b < |blocks| ==> 1 <= |blocks[b].items| <= cols)
    && (i <= |items| ==> forall b :: 0 <= b < |blocks| ==> |blocks[b].items| == cols)
    && (forall b :: 0 <= b < |blocks| - 1 ==> |blocks[b].items| == cols)
    && (forall b :: 0 <= b < |blocks| ==>
          blocks[b].divider == if b < |blocks| - 1 || i < |items| then Some(BlockDivider(termWidth)) else None)
  }

  /** One pass of the chunk loop keeps ChunkedUpTo. */
  lemma ChunkStep(blocks: seq<Block>, items: seq<(string, ProcessedService)>, i: int, cols: int, termWidth: int, block: Block)
    requires ChunkedUpTo(blocks, items, i, cols, termWidth)
    requires i < |items| && cols >= 1
    requires block.items == items[i..Min(i + cols, |items|)]
    requires block.divider == if i + cols < |items| then Some(BlockDivider(termWidth)) else None
    ensures ChunkedUpTo(blocks + [block], items, i + cols, cols, termWidth)
  {
    ItemsOfAppend(blocks, block);
    assert items[..Min(i + cols, |items|)] == items[..i] + block.items;
  }

  /**
   * The blocks cut `items` into pieces of `cols`: together they hold the
   * services in order, each holds 1 to `cols` of them, all but the last
   * are full, and all but the last are followed by a divider.
   */
  ghost predicate Chunked(blocks: seq<Block>, items: seq<(string, ProcessedService)>, cols: int, termWidth: int) {
    && |blocks| > 0
    && Flatten(ItemsOf(blocks)) == items
    && (forall b :: 0 <= b < |blocks| ==> 1 <= |blocks[b].items| <= cols)
    && (forall b :: 0 <= b < |blocks| - 1 ==> |blocks[b].items| == cols)
    && (forall b :: 0 <= b < |blocks| ==>
          blocks[b].divider == if b < |blocks| - 1 then Some(BlockDivider(termWidth)) else None)
  }

  /** When the chunk loop ends, the blocks cut the services into pieces. */
  lemma ChunkedDone(blocks: seq<Block>, items: seq<(string, ProcessedService)>, i: int, cols: int, termWidth: int)
    requires ChunkedUpTo(blocks, items, i, cols, termWidth)
    requires |items| > 0 && i >= |items|
    ensures Chunked(blocks, items, cols, termWidth)
  {
    assert items[..|items|] == items;
  }

  /** Every block is well built. */
  ghost predicate AllWellBuilt(blocks: seq<Block>, w: int, vlen: string -> int, fmt: Formatter) {
    forall b :: 0 <= b < |blocks| ==> WellBuilt(blocks[b], w, vlen, fmt)
  }

  /** Appending a well-built block to well-built blocks keeps them all well built. */
  lemma WellBuiltAppend(blocks: seq<Block>, block: Block, w: int, vlen: string -> int, fmt: Formatter)
    requires AllWellBuilt(blocks, w, vlen, fmt)
    requires WellBuilt(block, w, vlen, fmt)
    ensures AllWellBuilt(blocks + [block], w, vlen, fmt)
  {
  }

  /**
   * The chunk loop: the services cut, in order, into blocks of `cols`
   * (the last possibly shorter), each followed by a divider unless it is
   * the last.
   */
  method ChunkLoop(items: seq<(string, ProcessedService)>, cols: int, w: int, termWidth: int,
                   vlen: string -> int, fmt: Formatter)
    returns (blocks: seq<Block>)
    requires |items| > 0 && cols >= 1
    ensures Chunked(blocks, items, cols, termWidth)
    ensures AllWellBuilt(blocks, w, vlen, fmt)
  {
    var n := |items|;
    blocks := [];
    var i := 0;
    while i < n
      invariant ChunkedUpTo(blocks, items, i, cols, termWidth)
      invariant AllWellBuilt(blocks, w, vlen, fmt)
      decreases n - i
    {
      var block := ChunkBlock(items, i, cols, w, termWidth, vlen, fmt);
      ChunkStep(blocks, items, i, cols, termWidth, block);
      WellBuiltAppend(blocks, block, w, vlen, fmt);
      blocks := blocks + [block];
      i := i + cols;
    }
    ChunkedDone(blocks, items, i, cols, termWidth);
  }

  /**
   * The service part of display_scoreboard: nothing without services, a
   * warning on a terminal narrower than one column, and otherwise the
   * services in dictionary order cut into blocks of `ColsPerRow` columns
   * of width `ColWidth`.
   */
  method DisplayServices(services: Dict<ProcessedService>, termWidth: int, vlen: string -> int, fmt: Formatter)
    returns (g: Grid)
    requires Valid(services)
    ensures g == NoServices <==> |services.keys| == 0
    ensures g.TooNarrow? <==> |services.keys| > 0 && termWidth < MinColWidth
    ensures g.TooNarrow? ==> g.message == NarrowMessage
    ensures g.Blocks? ==>
      && g.colsPerRow == ColsPerRow(termWidth, |services.keys|)
      && g.colWidth == ColWidth(termWidth, g.colsPerRow)
      && |g.blocks| > 0
      && Flatten(ItemsOf(g.blocks)) == Items(services)
      && (forall b :: 0 <= b < |g.blocks| ==> 1 <= |g.blocks[b].items| <= g.colsPerRow)
      && (forall b :: 0 <= b < |g.blocks| - 1 ==> |g.blocks[b].items| == g.colsPerRow)
      && (forall b :: 0 <= b < |g.blocks| ==>
            g.blocks[b].divider == if b < |g.blocks| - 1 then Some(BlockDivider(termWidth)) else None)
      && AllWellBuilt(g.blocks, g.colWidth, vlen, fmt)
  {
    var items := Items(services);
    var n := |items|;
    if n == 0 {
      return NoServices;
    }
    if termWidth < MinColWidth {
      return TooNarrow(NarrowMessage);
    }
    var cols := ColsPerRow(termWidth, n);
    var w := ColWidth(termWidth, cols);
    var blocks := ChunkLoop(items, cols, w, termWidth, vlen, fmt);
    g := Blocks(cols, w, blocks);
  }
}
