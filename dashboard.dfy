/**
 * The derivations in the single-page dashboard (src/pages/Dashboard.jsx):
 * latest/previous selection, the stat-card trends, the alert summary, the
 * alert-type label and the avatar initials.
 */
module Dashboard {
  import opened Wrappers
  import opened Readings
  import opened Ui
  import StatCard

  /** `healthData[healthData.length - 1] || {}`: the last reading by position. */
  function LatestData(series: seq<Reading>): (r: Reading)
    ensures |series| >= 1 ==> r == series[|series| - 1]
    ensures series == [] ==> r == EmptyReading
  {
    if |series| >= 1 then series[|series| - 1] else EmptyReading
  }

  /** `healthData[healthData.length - 2] || {}`: the second-to-last reading by position. */
  function PreviousData(series: seq<Reading>): (r: Reading)
    ensures |series| >= 2 ==> r == series[|series| - 2]
    ensures |series| < 2 ==> r == EmptyReading
  {
    if |series| >= 2 then series[|series| - 2] else EmptyReading
  }

  /** The trend each stat card receives: `calculateTrend(latestData, previousData, key)`. */
  function StatTrend(series: seq<Reading>, f: Field): (t: TrendValue)
    ensures |series| < 2 ==> t == NaN
    ensures |series| >= 2 ==> t == CalculateTrend(series[|series| - 1], series[|series| - 2], f)
  {
    CalculateTrend(LatestData(series), PreviousData(series), f)
  }

  /** Only the last two readings matter: earlier history never changes a trend. */
  lemma TrendIgnoresHistory(history: seq<Reading>, series: seq<Reading>, f: Field)
    requires |series| >= 2
    ensures StatTrend(history + series, f) == StatTrend(series, f)
  {
  }

  /**
   * With fewer than two readings the card still draws its trend row, but
   * with a gray right arrow and a NaN magnitude rather than "0%".
   */
  lemma ShortSeriesCardShowsNaN(series: seq<Reading>, f: Field)
    requires |series| < 2
    ensures var t := Some(StatTrend(series, f));
      StatCard.TrendRowVisible(None, t) && StatCard.TrendColor(t) == StatCard.Gray &&
      StatCard.TrendIcon(t) == '→' && StatCard.Magnitude(t.value) == NaN
  {
  }

  /**
   * Selection is by position, never by timestamp: a series whose last entry
   * carries the earlier timestamp still reports that entry as the latest.
   */
  lemma SelectionIgnoresTimestamps()
    ensures
      var older := Reading(Some(EpochMs(1699000000000)), map[HeartRate := 70]);
      var newer := Reading(Some(EpochMs(1699400000000)), map[HeartRate := 80]);
      LatestData([newer, older]) == older && PreviousData([newer, older]) == newer
  {
  }

  /** An alert record as the dashboard's alerts endpoint and fixture supply it. */
  datatype Alert = Alert(id: int, alertType: string, severity: string, message: string, timestamp: int)

  /** The badge ternary of this dashboard: it spells the high variant "danger". */
  function BadgeVariant(severity: string): (v: Variant)
    ensures v == Danger <==> severity == "high"
    ensures v == Warning <==> severity == "medium"
    ensures v == Success <==> severity != "high" && severity != "medium"
  {
    if severity == "high" then Danger
    else if severity == "medium" then Warning
    else Success
  }

  /** This badge and the frontend one differ only in the name of the high variant. */
  lemma BadgeMatchesFrontendBadge(severity: string)
    ensures BadgeVariant(severity) == (if SeverityBadge(severity) == Destructive then Danger else SeverityBadge(severity))
    ensures BorderTone(severity) == Red <==> BadgeVariant(severity) == Danger
  {
  }

  /** The "Recent Alerts" card: a badge with the full count and the first three alerts. */
  datatype Summary = Summary(badge: nat, shown: seq<Alert>)

  function AlertSummary(alerts: seq<Alert>): (s: Summary)
    ensures s.badge == |alerts|
    ensures |s.shown| == Min(3, |alerts|) && s.shown <= alerts
  {
    Summary(|alerts|, FirstThree(alerts))
  }

  /** The characters `\w` matches, less the underscore: ASCII letters and digits. */
  predicate IsAlnum(c: char) {
    ('a' <= c <= 'z') || ('A' <= c <= 'Z') || ('0' <= c <= '9')
  }

  /** `\w`: ASCII letters, digits and the underscore. */
  predicate IsWordChar(c: char) {
    IsAlnum(c) || c == '_'
  }

  /** `toUpperCase` on the characters `\w` can match: only a–z change. */
  function ToUpper(c: char): (u: char)
    ensures 'a' <= c <= 'z' ==> 'A' <= u <= 'Z' && u as int == c as int - 32
    ensures !('a' <= c <= 'z') ==> u == c
  {
    if 'a' <= c <= 'z' then (c as int - 32) as char else c
  }

  /** `replace(/_/g, ' ')`. */
  function ReplaceUnderscores(s: string): string {
    seq(|s|, i requires 0 <= i < |s| => if s[i] == '_' then ' ' else s[i])
  }

  /** Index `i` of `t` matches `\b\w`: a word character not preceded by one. */
  predicate AtWordBoundary(t: string, i: int)
    requires 0 <= i < |t|
  {
    IsWordChar(t[i]) && (i == 0 || !IsWordChar(t[i - 1]))
  }

  /** `replace(/\b\w/g, l => l.toUpperCase())`: every match is found in `t` before any is replaced. */
  function CapitalizeWords(t: string): string {
    seq(|t|, i requires 0 <= i < |t| => if AtWordBoundary(t, i) then ToUpper(t[i]) else t[i])
  }

  /** The first letter or digit of each run of letters and digits in `s`. */
  predicate StartsWord(s: string, i: int)
    requires 0 <= i < |s|
  {
    IsAlnum(s[i]) && (i == 0 || !IsAlnum(s[i - 1]))
  }

  /**
   * The alert title: `alert_type` with underscores turned into spaces and
   * the first character of each word upper-cased. Every underscore becomes a
   * space, the first letter or digit of every run of letters and digits is
   * upper-cased, and every other character is kept; the length is kept.
   */
  function AlertTypeLabel(s: string): (r: string)
    ensures |r| == |s|
    ensures forall i :: 0 <= i < |r| ==> r[i] != '_'
    ensures forall i :: 0 <= i < |s| && s[i] == '_' ==> r[i] == ' '
    ensures forall i :: 0 <= i < |s| && StartsWord(s, i) ==> r[i] == ToUpper(s[i])
    ensures forall i :: 0 <= i < |s| && s[i] != '_' && !StartsWord(s, i) ==> r[i] == s[i]
  {
    var t := ReplaceUnderscores(s);
    assert forall i :: 0 <= i < |s| ==> (IsWordChar(t[i]) <==> IsAlnum(s[i]));
    CapitalizeWords(t)
  }

  /** Formatting a label again changes nothing. */
  lemma AlertTypeLabelIdempotent(s: string)
    ensures AlertTypeLabel(AlertTypeLabel(s)) == AlertTypeLabel(s)
  {
  }

  lemma AlertTypeLabelExample()
    ensures AlertTypeLabel("high_heart_rate") == "High Heart Rate"
  {
  }

  /** `name.split(' ')`: the parts between single spaces, empty parts included. */
  function Split(s: string): (parts: seq<string>)
    ensures |parts| >= 1
  {
    if s == [] then [""]
    else
      var rest := Split(s[1..]);
      if s[0] == ' ' then [""] + rest
      else [[s[0]] + rest[0]] + rest[1..]
  }

  /** `n => n[0]` followed by `join('')`: an empty part gives `undefined`, which joins as nothing. */
  function JoinFirsts(parts: seq<string>): string {
    if parts == [] then ""
    else (if parts[0] == "" then "" else [parts[0][0]]) + JoinFirsts(parts[1..])
  }

  /**
   * Reference for the initials, by position: the non-space characters of
   * `s` that stand first or right after a space (`afterSpace` says whether
   * the character before `s` was a space, or `s` is the whole name).
   */
  function WordStarts(s: string, afterSpace: bool): string {
    if s == [] then ""
    else (if afterSpace && s[0] != ' ' then [s[0]] else "") + WordStarts(s[1..], s[0] == ' ')
  }

  lemma {:induction false} JoinFirstsAppend(a: seq<string>, b: seq<string>)
    ensures JoinFirsts(a + b) == JoinFirsts(a) + JoinFirsts(b)
  {
    if a != [] {
      assert (a + b)[1..] == a[1..] + b;
      JoinFirstsAppend(a[1..], b);
    } else {
      assert a + b == b;
    }
  }

  /** The first part of a split is the text before the first space; the rest give the later word starts. */
  lemma {:induction false} SplitWordStarts(s: string)
    ensures Split(s)[0] == [] <==> (s == [] || s[0] == ' ')
    ensures Split(s)[0] != [] ==> Split(s)[0][0] == s[0]
    ensures JoinFirsts(Split(s)[1..]) == WordStarts(s, false)
  {
    if s != [] {
      var rest := Split(s[1..]);
      SplitWordStarts(s[1..]);
      JoinFirstsAppend([rest[0]], rest[1..]);
      assert rest == [rest[0]] + rest[1..];
      if s[0] == ' ' {
        assert Split(s)[1..] == rest;
      } else {
        assert Split(s)[1..] == rest[1..];
      }
    }
  }

  /**
   * The avatar fallback: `name.split(' ').map(n => n[0]).join('')`. The
   * initials are exactly the non-space characters that begin the name or
   * follow a space, in order; empty parts contribute nothing.
   */
  function Initials(name: string): (r: string)
    ensures r == WordStarts(name, true)
  {
    var parts := Split(name);
    SplitWordStarts(name);
    assert parts == [parts[0]] + parts[1..];
    JoinFirstsAppend([parts[0]], parts[1..]);
    assert name != [] ==>
      WordStarts(name, true) == (if name[0] != ' ' then [name[0]] else "") + WordStarts(name[1..], name[0] == ' ') &&
      WordStarts(name, false) == WordStarts(name[1..], name[0] == ' ');
    JoinFirsts(parts)
  }

  lemma InitialsExample()
    ensures Initials("Jane Doe") == "JD"
  {
  }
}
