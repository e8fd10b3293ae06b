/** `generate_basic_review`: the review written without any model, from the
    day's counters alone. Its content is a list of `ReviewLine`s chosen by
    the counters, rendered with a version's glyphs; both versions of the
    review make the same choices. */
module Basic {
  import opened Text
  import opened Summary
  import opened Prompt

  /** The lines the basic review can contain, in the order they appear. */
  datatype ReviewLine =
    | Praise(completed: nat)
    | NoCompletions
    | SessionSummary(sessions: nat, averageTenths: nat)
    | LongerSessionsTip
    | ShorterSessionsTip
    | NoSessions
    | LogsNoted(entries: nat)
    | TomorrowHeading
    | PendingReminder(pending: nat)
    | FixedSuggestions

  /** The average session length in tenths of a minute, rounded the way
      `{avg:.1f}` rounds: to the nearest tenth, a tie going to the even
      tenth. */
  function RoundedTenths(total: nat, sessions: nat): (q: nat)
    requires sessions > 0
    ensures -(sessions as int) <= 2 * (10 * total - q * sessions) <= sessions
    ensures 2 * (10 * total - q * sessions) == sessions ==> q % 2 == 0
    ensures 2 * (10 * total - q * sessions) == -(sessions as int) ==> q % 2 == 0
  {
    var n := 10 * total;
    var q := n / sessions;
    var rem := n % sessions;
    assert n == q * sessions + rem;
    if 2 * rem > sessions || (2 * rem == sessions && q % 2 == 1) then q + 1 else q
  }

  /** A count of tenths written with one decimal place. */
  function FormatTenths(q: nat): (r: string)
    ensures |r| >= 3 && r[|r| - 2] == '.' && r[|r| - 1] == DigitChar(q % 10)
    ensures forall k :: 0 <= k < |r| - 2 ==> IsDigit(r[k])
    ensures ParseDigits(r[..|r| - 2]) == q / 10
  {
    var whole := NatToString(q / 10);
    ParseNatToString(q / 10);
    var r := whole + "." + [DigitChar(q % 10)];
    assert r[..|r| - 2] == whole;
    r
  }

  /** The average as `total_focus_time / focus_sessions` computes it. */
  function Average(total: nat, sessions: nat): real
    requires sessions > 0
  {
    (total as real) / (sessions as real)
  }

  /** Where a line stands in the review: the lines of one review appear in
      strictly increasing place. */
  function Place(l: ReviewLine): (p: nat)
    ensures p < 10
  {
    match l
    case Praise(_) => 0
    case NoCompletions => 1
    case SessionSummary(_, _) => 2
    case LongerSessionsTip => 3
    case ShorterSessionsTip => 4
    case NoSessions => 5
    case LogsNoted(_) => 6
    case TomorrowHeading => 7
    case PendingReminder(_) => 8
    case FixedSuggestions => 9
  }

  predicate InOrder(r: seq<ReviewLine>) {
    forall i, j :: 0 <= i < j < |r| ==> Place(r[i]) < Place(r[j])
  }

  /** The condition under which the basic review writes a line, with the
      numbers that line carries. */
  predicate Belongs(s: Stats, l: ReviewLine) {
    match l
    case Praise(n) => s.completedTasks > 0 && n == s.completedTasks
    case NoCompletions => s.completedTasks == 0
    case SessionSummary(n, t) =>
      s.focusSessions > 0 && n == s.focusSessions && t == RoundedTenths(s.totalFocusTime, s.focusSessions)
    case LongerSessionsTip => s.focusSessions > 0 && s.totalFocusTime < 15 * s.focusSessions
    case ShorterSessionsTip => s.focusSessions > 0 && s.totalFocusTime > 45 * s.focusSessions
    case NoSessions => s.focusSessions == 0
    case LogsNoted(n) => s.logEntries > 0 && n == s.logEntries
    case TomorrowHeading => true
    case PendingReminder(n) => s.pendingTasks > 0 && n == s.pendingTasks
    case FixedSuggestions => true
  }

  /** `r` holds, in order, exactly the lines that belong to the review and
      whose place lies in `[lo, hi)`. */
  ghost predicate Section(s: Stats, r: seq<ReviewLine>, lo: nat, hi: nat) {
    && InOrder(r)
    && (forall i :: 0 <= i < |r| ==> lo <= Place(r[i]) < hi)
    && (forall l :: l in r <==> Belongs(s, l) && lo <= Place(l) < hi)
  }

  /** The opening line: praise when tasks were completed, else advice. */
  function CompletionLines(s: Stats): (r: seq<ReviewLine>)
    ensures |r| == 1
    ensures Section(s, r, 0, 2)
    ensures Praise(s.completedTasks) in r <==> s.completedTasks > 0
    ensures NoCompletions in r <==> s.completedTasks == 0
  {
    var praise := if s.completedTasks > 0 then [Praise(s.completedTasks)] else [];
    var advice := if s.completedTasks == 0 then [NoCompletions] else [];
    OptionalSection(s, 0, s.completedTasks > 0);
    OptionalSection(s, 1, s.completedTasks == 0);
    ConcatSection(s, praise, advice, 0, 1, 2);
    praise + advice
  }

  /** The focus lines: with sessions, their count and average followed by a
      tip when the average is under 15 or over 45 minutes; without, advice
      to start. */
  function FocusLines(s: Stats): (r: seq<ReviewLine>)
    ensures 1 <= |r| <= 2
    ensures Section(s, r, 2, 6)
    ensures s.focusSessions > 0 ==> r[0] == SessionSummary(s.focusSessions, RoundedTenths(s.totalFocusTime, s.focusSessions))
    ensures LongerSessionsTip in r <==> s.focusSessions > 0 && s.totalFocusTime < 15 * s.focusSessions
    ensures ShorterSessionsTip in r <==> s.focusSessions > 0 && s.totalFocusTime > 45 * s.focusSessions
    ensures NoSessions in r <==> s.focusSessions == 0
  {
    FocusPieces(s);
    ConcatSection(s, SummaryPiece(s), TipPiece(s), 2, 3, 5);
    ConcatSection(s, SummaryPiece(s) + TipPiece(s), NonePiece(s), 2, 5, 6);
    SummaryPiece(s) + TipPiece(s) + NonePiece(s)
  }

  /** With sessions, their count and average. */
  function SummaryPiece(s: Stats): seq<ReviewLine> {
    if s.focusSessions > 0 then [SessionSummary(s.focusSessions, RoundedTenths(s.totalFocusTime, s.focusSessions))]
    else []
  }

  /** With sessions, the tip the average calls for, if any. */
  function TipPiece(s: Stats): seq<ReviewLine> {
    if s.focusSessions > 0 && Average(s.totalFocusTime, s.focusSessions) < 15.0 then [LongerSessionsTip]
    else if s.focusSessions > 0 && Average(s.totalFocusTime, s.focusSessions) > 45.0 then [ShorterSessionsTip]
    else []
  }

  /** Without sessions, the advice to start. */
  function NonePiece(s: Stats): seq<ReviewLine> {
    if s.focusSessions == 0 then [NoSessions] else []
  }

  lemma FocusPieces(s: Stats)
    ensures Section(s, SummaryPiece(s), 2, 3)
    ensures Section(s, TipPiece(s), 3, 5)
    ensures Section(s, NonePiece(s), 5, 6)
  {
    SummarySection(s);
    TipSection(s);
    OptionalSection(s, 5, s.focusSessions == 0);
  }

  lemma SummarySection(s: Stats)
    ensures Section(s, SummaryPiece(s), 2, 3)
  {
    if s.focusSessions > 0 {
      OptionalSection(s, 2, true);
    } else {
      EmptySection(s, 2, 3);
    }
  }

  lemma TipSection(s: Stats)
    ensures Section(s, TipPiece(s), 3, 5)
  {
    var n := s.focusSessions;
    var longer := n > 0 && s.totalFocusTime < 15 * n;
    var shorter := n > 0 && s.totalFocusTime > 45 * n;
    if n > 0 {
      AverageBelow(s.totalFocusTime, n, 15);
      AverageAbove(s.totalFocusTime, n, 45);
    }
    OptionalSection(s, 3, longer);
    OptionalSection(s, 4, shorter);
    ConcatSection(s, if longer then [LongerSessionsTip] else [], if shorter then [ShorterSessionsTip] else [], 3, 4, 5);
    assert TipPiece(s) == (if longer then [LongerSessionsTip] else []) + (if shorter then [ShorterSessionsTip] else []);
  }

  /** The closing lines: the log count when there are log entries, the
      "Tomorrow's focus" heading, the pending count when tasks are pending,
      and the two fixed suggestions. */
  function ClosingLines(s: Stats): (r: seq<ReviewLine>)
    ensures 2 <= |r| <= 4 && r[|r| - 2] != FixedSuggestions && r[|r| - 1] == FixedSuggestions
    ensures Section(s, r, 6, 10)
    ensures TomorrowHeading in r
    ensures LogsNoted(s.logEntries) in r <==> s.logEntries > 0
    ensures PendingReminder(s.pendingTasks) in r <==> s.pendingTasks > 0
  {
    ClosingPieces(s);
    var r := (LogsPiece(s) + [TomorrowHeading]) + (PendingPiece(s) + [FixedSuggestions]);
    assert r[|r| - 2] == (if s.pendingTasks > 0 then PendingReminder(s.pendingTasks) else TomorrowHeading);
    r
  }

  /** With log entries, their count. */
  function LogsPiece(s: Stats): seq<ReviewLine> {
    if s.logEntries > 0 then [LogsNoted(s.logEntries)] else []
  }

  /** With pending tasks, their count. */
  function PendingPiece(s: Stats): seq<ReviewLine> {
    if s.pendingTasks > 0 then [PendingReminder(s.pendingTasks)] else []
  }

  lemma ClosingPieces(s: Stats)
    ensures Section(s, (LogsPiece(s) + [TomorrowHeading]) + (PendingPiece(s) + [FixedSuggestions]), 6, 10)
  {
    ClosingFront(s);
    ClosingBack(s);
    ConcatSection(s, LogsPiece(s) + [TomorrowHeading], PendingPiece(s) + [FixedSuggestions], 6, 8, 10);
  }

  lemma ClosingFront(s: Stats)
    ensures Section(s, LogsPiece(s) + [TomorrowHeading], 6, 8)
  {
    OptionalSection(s, 6, s.logEntries > 0);
    OptionalSection(s, 7, true);
    ConcatSection(s, LogsPiece(s), [TomorrowHeading], 6, 7, 8);
  }

  lemma ClosingBack(s: Stats)
    ensures Section(s, PendingPiece(s) + [FixedSuggestions], 8, 10)
  {
    OptionalSection(s, 8, s.pendingTasks > 0);
    OptionalSection(s, 9, true);
    ConcatSection(s, PendingPiece(s), [FixedSuggestions], 8, 9, 10);
  }

  /** Which line a place holds. */
  lemma PlaceKind(l: ReviewLine)
    ensures Place(l) == 0 <==> l.Praise?
    ensures Place(l) == 1 <==> l.NoCompletions?
    ensures Place(l) == 2 <==> l.SessionSummary?
    ensures Place(l) == 3 <==> l.LongerSessionsTip?
    ensures Place(l) == 4 <==> l.ShorterSessionsTip?
    ensures Place(l) == 5 <==> l.NoSessions?
    ensures Place(l) == 6 <==> l.LogsNoted?
    ensures Place(l) == 7 <==> l.TomorrowHeading?
    ensures Place(l) == 8 <==> l.PendingReminder?
    ensures Place(l) == 9 <==> l.FixedSuggestions?
  {
  }

  /** The one line that may stand at place `p` of the review for `s`. */
  function Candidate(s: Stats, p: nat): (l: ReviewLine)
    requires p < 10
    ensures Place(l) == p
  {
    if p == 0 then Praise(s.completedTasks)
    else if p == 1 then NoCompletions
    else if p == 2 then
      SessionSummary(s.focusSessions, if s.focusSessions > 0 then RoundedTenths(s.totalFocusTime, s.focusSessions) else 0)
    else if p == 3 then LongerSessionsTip
    else if p == 4 then ShorterSessionsTip
    else if p == 5 then NoSessions
    else if p == 6 then LogsNoted(s.logEntries)
    else if p == 7 then TomorrowHeading
    else if p == 8 then PendingReminder(s.pendingTasks)
    else FixedSuggestions
  }

  /** Every line that belongs to the review is the candidate of its place. */
  lemma BelongsIsCandidate(s: Stats, m: ReviewLine)
    requires Belongs(s, m)
    ensures m == Candidate(s, Place(m))
  {
    PlaceKind(m);
  }

  /** Place `p` holds its candidate exactly when `present`. */
  lemma OptionalSection(s: Stats, p: nat, present: bool)
    requires p < 10
    requires present <==> Belongs(s, Candidate(s, p))
    ensures Section(s, if present then [Candidate(s, p)] else [], p, p + 1)
  {
    var r := if present then [Candidate(s, p)] else [];
    forall m ensures m in r <==> Belongs(s, m) && p <= Place(m) < p + 1 {
      if Belongs(s, m) && Place(m) == p {
        BelongsIsCandidate(s, m);
      }
    }
  }

  /** A place no line of the review holds. */
  lemma EmptySection(s: Stats, lo: nat, hi: nat)
    requires forall m :: lo <= Place(m) < hi ==> !Belongs(s, m)
    ensures Section(s, [], lo, hi)
  {
  }

  /** The lines of the basic review for a day's counters: exactly the lines
      that belong to it, each once, in the order of the source. */
  function BasicReviewLines(s: Stats): (r: seq<ReviewLine>)
    ensures forall l :: l in r <==> Belongs(s, l)
    ensures InOrder(r)
    ensures Praise(s.completedTasks) in r <==> s.completedTasks > 0
    ensures NoCompletions in r <==> s.completedTasks == 0
    ensures |r| >= 4 && r[|r| - 2] != FixedSuggestions && r[|r| - 1] == FixedSuggestions
    ensures s.focusSessions > 0 ==> r[1] == SessionSummary(s.focusSessions, RoundedTenths(s.totalFocusTime, s.focusSessions))
    ensures LongerSessionsTip in r <==> s.focusSessions > 0 && s.totalFocusTime < 15 * s.focusSessions
    ensures ShorterSessionsTip in r <==> s.focusSessions > 0 && s.totalFocusTime > 45 * s.focusSessions
    ensures NoSessions in r <==> s.focusSessions == 0
    ensures LogsNoted(s.logEntries) in r <==> s.logEntries > 0
    ensures TomorrowHeading in r
    ensures PendingReminder(s.pendingTasks) in r <==> s.pendingTasks > 0
  {
    ReviewParts(s);
    WholeReview(s, CompletionLines(s) + FocusLines(s) + ClosingLines(s));
    CompletionLines(s) + FocusLines(s) + ClosingLines(s)
  }

  lemma ReviewParts(s: Stats)
    ensures var r := CompletionLines(s) + FocusLines(s) + ClosingLines(s);
      && Section(s, r, 0, 10)
      && |r| >= 4 && r[|r| - 2] != FixedSuggestions && r[|r| - 1] == FixedSuggestions
      && (s.focusSessions > 0 ==> r[1] == SessionSummary(s.focusSessions, RoundedTenths(s.totalFocusTime, s.focusSessions)))
  {
    Assemble(s, CompletionLines(s), FocusLines(s), ClosingLines(s));
  }

  /** Two sections side by side form the section spanning both. */
  lemma ConcatSection(s: Stats, x: seq<ReviewLine>, y: seq<ReviewLine>, lo: nat, mid: nat, hi: nat)
    requires lo <= mid <= hi
    requires Section(s, x, lo, mid) && Section(s, y, mid, hi)
    ensures Section(s, x + y, lo, hi)
  {
    var r := x + y;
    forall i, j | 0 <= i < j < |r| ensures Place(r[i]) < Place(r[j]) {
      if j < |x| {
        assert r[i] == x[i] && r[j] == x[j];
      } else if i >= |x| {
        assert r[i] == y[i - |x|] && r[j] == y[j - |x|];
      } else {
        assert r[i] == x[i] && r[j] == y[j - |x|];
      }
    }
    forall i | 0 <= i < |r| ensures lo <= Place(r[i]) < hi {
      if i < |x| {
        assert r[i] == x[i];
      } else {
        assert r[i] == y[i - |x|];
      }
    }
    forall l ensures l in r <==> Belongs(s, l) && lo <= Place(l) < hi {
      assert l in r <==> l in x || l in y;
    }
  }

  /** The three parts in order give the whole review, with the session
      line second and the fixed suggestions last. */
  lemma Assemble(s: Stats, a: seq<ReviewLine>, b: seq<ReviewLine>, c: seq<ReviewLine>)
    requires Section(s, a, 0, 2) && Section(s, b, 2, 6) && Section(s, c, 6, 10)
    requires |a| == 1 && |b| >= 1 && 2 <= |c| && c[|c| - 2] != FixedSuggestions && c[|c| - 1] == FixedSuggestions
    requires s.focusSessions > 0 ==> b[0] == SessionSummary(s.focusSessions, RoundedTenths(s.totalFocusTime, s.focusSessions))
    ensures var r := a + b + c;
      && Section(s, r, 0, 10)
      && |r| >= 4 && r[|r| - 2] != FixedSuggestions && r[|r| - 1] == FixedSuggestions
      && (s.focusSessions > 0 ==> r[1] == SessionSummary(s.focusSessions, RoundedTenths(s.totalFocusTime, s.focusSessions)))
  {
    var r := a + b + c;
    ConcatSection(s, a, b, 0, 2, 6);
    ConcatSection(s, a + b, c, 0, 6, 10);
    assert r[1] == b[0];
    assert r[|r| - 2] == c[|c| - 2] && r[|r| - 1] == c[|c| - 1];
  }

  /** What the whole-review section says line by line. */
  lemma WholeReview(s: Stats, r: seq<ReviewLine>)
    requires Section(s, r, 0, 10)
    ensures forall l :: l in r <==> Belongs(s, l)
    ensures Praise(s.completedTasks) in r <==> s.completedTasks > 0
    ensures NoCompletions in r <==> s.completedTasks == 0
    ensures LongerSessionsTip in r <==> s.focusSessions > 0 && s.totalFocusTime < 15 * s.focusSessions
    ensures ShorterSessionsTip in r <==> s.focusSessions > 0 && s.totalFocusTime > 45 * s.focusSessions
    ensures NoSessions in r <==> s.focusSessions == 0
    ensures LogsNoted(s.logEntries) in r <==> s.logEntries > 0
    ensures TomorrowHeading in r
    ensures PendingReminder(s.pendingTasks) in r <==> s.pendingTasks > 0
  {
    assert Belongs(s, TomorrowHeading);
  }

  /** Comparing the average with a whole number of minutes is comparing the
      total with that many minutes per session. */
  lemma AverageBelow(total: nat, sessions: nat, k: nat)
    requires sessions > 0
    ensures Average(total, sessions) < k as real <==> total < k * sessions
  {
    var a := Average(total, sessions);
    assert a * (sessions as real) == total as real;
    assert (k * sessions) as real == (k as real) * (sessions as real);
  }

  lemma AverageAbove(total: nat, sessions: nat, k: nat)
    requires sessions > 0
    ensures Average(total, sessions) > k as real <==> total > k * sessions
  {
    var a := Average(total, sessions);
    assert a * (sessions as real) == total as real;
    assert (k * sessions) as real == (k as real) * (sessions as real);
  }

  /** One review line as text. */
  function RenderLine(line: ReviewLine, g: Glyphs): string {
    match line
    case Praise(n) => g.done + " Great job completing " + NatToString(n) + " task(s)!\n"
    case NoCompletions =>
      g.warning + " No tasks completed today. Consider breaking down large tasks into smaller ones.\n"
    case SessionSummary(n, tenths) =>
      g.target + " You had " + NatToString(n) + " focus session(s) averaging " + FormatTenths(tenths) + " minutes.\n"
    case LongerSessionsTip => g.bulb + " Try longer focus sessions (25+ minutes) for deeper work.\n"
    case ShorterSessionsTip => g.bulb + " Consider shorter sessions with breaks to maintain focus.\n"
    case NoSessions => g.alarm + " No focus sessions logged. Try starting with 25-minute focused work blocks.\n"
    case LogsNoted(n) => g.memo + " You made " + NatToString(n) + " log entries - great for reflection!\n"
    case TomorrowHeading => "\n" + g.crystal + " Tomorrow's focus:\n"
    case PendingReminder(n) => "- Complete " + NatToString(n) + " pending task(s)\n"
    case FixedSuggestions => "- Start with a focus session\n- Log your progress regularly"
  }

  function RenderLines(lines: seq<ReviewLine>, g: Glyphs): string {
    if lines == [] then "" else RenderLine(lines[0], g) + RenderLines(lines[1..], g)
  }

  /** The body of the "Daily Review" panel. */
  function ReviewText(s: Stats, g: Glyphs): string {
    g.chart + " Basic Daily Review:\n\n" + RenderLines(BasicReviewLines(s), g)
  }

  /** The panel shown when the summary fails validation. */
  function DataIssuesText(g: Glyphs): string {
    g.chart + " Unable to generate detailed review due to data issues.\n\n"
    + g.bulb + " General suggestions:\n- Set clear daily goals\n- Use focus sessions for deep work\n"
    + "- Log your progress regularly\n- Review and adjust your approach"
  }

  /** `generate_basic_review` of the newer version: it reads the summary
      afresh, validates it, and writes the review. As every summary it can
      read validates, the data-issues panel never appears. */
  function BasicReview(store: Store): (r: string)
    ensures r == ReviewText(GetDailySummary(store).stats, Emoji)
  {
    var d := GetDailySummary(store);
    SummaryValidates(d);
    if !ValidateDailySummary(SummaryValue(d)) then DataIssuesText(Emoji)
    else ReviewText(d.stats, Emoji)
  }

  /** Two sessions of 25 minutes with one pending task: congratulations, an
      average of 25.0 minutes and no tip, the log note, and the pending
      count in the closing section. */
  lemma WorkedExample()
    ensures BasicReviewLines(Stats(2, 1, 2, 50, 3)) ==
      [Praise(2), SessionSummary(2, 250), LogsNoted(3), TomorrowHeading, PendingReminder(1), FixedSuggestions]
  {
    var st := Stats(2, 1, 2, 50, 3);
    assert RoundedTenths(50, 2) == 250;
    assert CompletionLines(st) == [Praise(2)];
    assert Average(50, 2) == 25.0;
    assert TipPiece(st) == [];
    assert ClosingLines(st) == [LogsNoted(3), TomorrowHeading, PendingReminder(1), FixedSuggestions];
  }

  /** The worked example's average as the review prints it. */
  lemma WorkedAverage()
    ensures FormatTenths(RoundedTenths(50, 2)) == "25.0"
  {
    assert RoundedTenths(50, 2) == 250;
    assert NatToString(25) == "25";
  }

  /** Between 15 and 45 minutes per session no tip is given. */
  lemma NoTipInBand(s: Stats)
    requires s.focusSessions > 0
    requires 15 * s.focusSessions <= s.totalFocusTime <= 45 * s.focusSessions
    ensures LongerSessionsTip !in BasicReviewLines(s) && ShorterSessionsTip !in BasicReviewLines(s)
  {
  }

  /** The rounding agrees with the exact quotient when it is a whole number
      of tenths. */
  lemma ExactTenths(total: nat, sessions: nat)
    requires sessions > 0 && (10 * total) % sessions == 0
    ensures RoundedTenths(total, sessions) * sessions == 10 * total
  {
  }
}
