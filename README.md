# Health dashboard: derived display values

This project models the small layer of display logic in the health-metrics
dashboard front end, and proves properties of it. It covers five source files:

- **Two-reading trend.** Both dashboards pick the latest and the previous
  reading by position (`src/pages/Dashboard.jsx`,
  `frontend/src/components/dashboard/Overview.jsx`). They then compute
  `Math.round(((cur - prev) / prev) * 100)`, with a guard for a zero baseline.
  The model is in `readings.dfy`, `dashboard.dfy` and `overview.dfy`.
- **Stat card indicator.** The stat card (`frontend/src/components/stat-card.jsx`)
  turns the sign of the trend into a colour and an arrow. It always shows
  `Math.abs(trend)`. The model is in `stat_card.dfy`.
- **Notification read state.** The notification dropdown
  (`frontend/src/components/notifications/NotificationCenter.jsx`) keeps its
  list as component state. It has an unread count, a click handler that marks
  one id read, and a "mark all as read" button. The model is a class in
  `notifications.dfy`.
- **Alert presentation.** These are the maps from severity to border colour,
  badge, icon and variant. They also include the fallback to built-in alerts,
  the first-three summary, the `snake_case` → `Title Case` alert label and the
  avatar initials. The model is in `ui.dfy`, `alerts.dfy`, `dashboard.dfy` and
  `overview.dfy`.

A reading is a record of optional numeric fields. A field absent from the map
is JavaScript `undefined`. A trend is a JavaScript number as the code can
produce it: an integer percentage or `NaN`. Arithmetic is exact, over `real`.
`Math.round` is `floor(x + 1/2)`, so ties go toward +∞: −12.5 % shows as −12 %.

Three details of the code shape the results:

- A missing previous value gives `NaN`, not 0. `previousData` is always an
  object because of `|| {}`, so the `!previous` guard in `calculateTrend`
  never fires, and a missing value reaches the arithmetic. The zero check on
  the previous value comes first, so a previous value of exactly 0 gives 0
  even when the current value is missing.
- `Math.round` sends ties toward +∞, so −12.5 becomes −12.
- Timestamps are never read: latest and previous are chosen by position only
  (`Dashboard.SelectionIgnoresTimestamps`).

The clock reading used by the built-in alerts and notifications
(`new Date()`, `Date.now()`) is a parameter `now` in epoch milliseconds.
Navigation after a notification click is modelled as the link the handler
returns.

## Model

| member | source | states |
|---|---|---|
| Dashboard.LatestData | src/pages/Dashboard.jsx:98 | The latest reading is the last element by position; an empty series gives the empty record |
| Dashboard.PreviousData | src/pages/Dashboard.jsx:99 | The previous reading is the second-to-last element by position; a series shorter than two gives the empty record |
| Dashboard.StatTrend | src/pages/Dashboard.jsx:98-105 | A card's trend is NaN for a series shorter than two, and otherwise depends only on the last two readings |
| Dashboard.TrendIgnoresHistory | src/pages/Dashboard.jsx:98-99 | Prepending any earlier readings to a series of two or more never changes a trend |
| Dashboard.SelectionIgnoresTimestamps | src/pages/Dashboard.jsx:98-99 | A last entry with the earlier timestamp is still the latest reading: selection never compares timestamps |
| Dashboard.ShortSeriesCardShowsNaN | src/pages/Dashboard.jsx:142-165 | With fewer than two readings the trend row is still drawn, with a gray right arrow and a NaN magnitude, not 0 |
| Readings.CalculateTrend | src/pages/Dashboard.jsx:102-105 | A zero baseline gives 0 even if the current value is missing; the result is NaN exactly when the baseline is missing or the baseline is non-zero and the current value is missing; otherwise it is the rounded percentage |
| Readings.RoundHalfUp | src/pages/Dashboard.jsx:104 | `Math.round` gives the nearest integer to x, with a tie going up: x − 1/2 < r ≤ x + 1/2 |
| Readings.TrendOf | src/pages/Dashboard.jsx:104 | The trend lies within one half of 100·(cur−prev)/prev, with a tie rounding up |
| Readings.TrendOfEqualValues | src/pages/Dashboard.jsx:104 | Equal current and previous values give a trend of 0 |
| Readings.TrendSign | src/pages/Dashboard.jsx:104 | With a positive baseline, a positive trend implies cur > prev and a negative trend implies cur < prev |
| Readings.TrendMonotone | src/pages/Dashboard.jsx:104 | With a positive baseline, a larger current value never gives a smaller trend |
| Readings.TrendMatchesIntegerReference | src/pages/Dashboard.jsx:104 | The trend equals floor((200·(cur−prev) + prev) / (2·prev)) in integer arithmetic, for either sign of the baseline |
| Readings.TrendExamples | src/pages/Dashboard.jsx:104 | 70 → 75 gives 7, 8 → 7 gives −12 (a tie rounded up), and 8 → 9 gives 13 |
| Dashboard.BadgeVariant | src/pages/Dashboard.jsx:191-195 | "high" gives danger, "medium" gives warning, and every other string gives success |
| Dashboard.BadgeMatchesFrontendBadge | src/pages/Dashboard.jsx:179-195 | This badge differs from the frontend badge only in naming the high variant "danger"; a red border always comes with a danger badge |
| Dashboard.AlertSummary | src/pages/Dashboard.jsx:172-178 | The badge shows the full count n; the card shows the first min(3, n) alerts in input order |
| Dashboard.AlertTypeLabel | src/pages/Dashboard.jsx:187 | Length is kept and no underscore remains. Each underscore becomes a space, and the first letter or digit of each word is upper-cased. Every other character is unchanged |
| Dashboard.AlertTypeLabelIdempotent | src/pages/Dashboard.jsx:187 | Formatting a formatted label changes nothing |
| Dashboard.AlertTypeLabelExample | src/pages/Dashboard.jsx:425 | `high_heart_rate` is shown as `High Heart Rate` |
| Dashboard.Initials | src/pages/Dashboard.jsx:121 | The initials are exactly the non-space characters that begin the name or follow a space, in order; empty parts contribute nothing |
| Dashboard.InitialsExample | src/pages/Dashboard.jsx:457 | `Jane Doe` gives `JD` |
| Ui.BorderTone | src/pages/Dashboard.jsx:179-183 | "high" is red, "medium" is yellow, and every other string is blue, in both directions |
| Ui.SeverityBadge | frontend/src/components/dashboard/Overview.jsx:108-112 | "high" is destructive, "medium" is warning, and every other string is success, in both directions |
| Ui.BorderMatchesBadge | frontend/src/components/dashboard/Overview.jsx:96-112 | Border colour and badge always agree: red with destructive, yellow with warning, blue with success |
| Ui.FirstThree | frontend/src/components/dashboard/Overview.jsx:95 | `slice(0, 3)` is a prefix of the list, of length min(3, n) |
| Ui.OrFallback | frontend/src/components/dashboard/Overview.jsx:53 | A non-empty list is used unchanged; an absent or empty one is replaced by the fallback |
| Ui.OrFallbackIdempotent | frontend/src/components/dashboard/Overview.jsx:53 | Feeding the displayed list back in gives the same list, whatever the fallback |
| Overview.LatestData | frontend/src/components/dashboard/Overview.jsx:19 | Absent data gives the empty record; otherwise the positional rule of the other dashboard applies |
| Overview.PreviousData | frontend/src/components/dashboard/Overview.jsx:20 | Absent data gives the empty record; otherwise the positional rule of the other dashboard applies |
| Overview.StatTrend | frontend/src/components/dashboard/Overview.jsx:23-26 | Absent data or fewer than two readings give NaN; otherwise the trend is the one the other dashboard computes |
| Overview.DisplayValue | frontend/src/components/dashboard/Overview.jsx:61 | An absent field shows as 0; a present one shows its value |
| Overview.AbsentDataShowsZeros | frontend/src/components/dashboard/Overview.jsx:61-81 | Without health data every card shows 0 with a NaN trend |
| Overview.MockAlerts | frontend/src/components/dashboard/Overview.jsx:29-51 | The built-in list has exactly three alerts (high, medium, low), stamped now, one hour ago and two hours ago |
| Overview.DisplayAlerts | frontend/src/components/dashboard/Overview.jsx:53 | Non-empty alerts are used unchanged; absent or empty alerts are replaced by the built-in three; the result is never empty |
| Overview.AlertCard | frontend/src/components/dashboard/Overview.jsx:86-120 | The badge counts every displayed alert. The rows are the first min(3, n) displayed alerts in order, each with its border tone and badge |
| Overview.EmptyAlertsCard | frontend/src/components/dashboard/Overview.jsx:53-100 | Empty and absent alerts give the same card: count 3, with red, yellow and blue rows |
| StatCard.TrendColor | frontend/src/components/stat-card.jsx:7 | Green exactly when trend > 0, red exactly when trend < 0, gray otherwise (0, NaN, undefined) |
| StatCard.TrendIcon | frontend/src/components/stat-card.jsx:8 | Up arrow exactly when trend > 0, down arrow exactly when trend < 0, right arrow otherwise |
| StatCard.ColorMatchesArrow | frontend/src/components/stat-card.jsx:7-8 | Colour and arrow always agree: green with up, red with down, gray with right |
| StatCard.Magnitude | frontend/src/components/stat-card.jsx:29 | The displayed magnitude is never negative, equals the trend up to sign, and is NaN exactly for NaN |
| StatCard.ColorAndMagnitudeGiveTrend | frontend/src/components/stat-card.jsx:7-29 | The sign is carried by the colour alone: colour and magnitude give back the trend, and t and −t show the same magnitude |
| StatCard.TrendRowVisible | frontend/src/components/stat-card.jsx:24 | The trend row is drawn exactly when there is a non-empty description or the trend is not undefined |
| Alerts.GetAlertIcon | frontend/src/components/dashboard/Alerts.jsx:6-17 | "medium" gives a triangle and "low" gives a check mark, in both directions; every other string, "high" included, gives a circle |
| Alerts.GetAlertVariant | frontend/src/components/dashboard/Alerts.jsx:19-30 | "high" gives destructive, "medium" gives warning, "low" gives success, and any other string gives default, in both directions |
| Alerts.UnknownSeverityLooksHigh | frontend/src/components/dashboard/Alerts.jsx:13-28 | An unknown severity shares the high icon but not the high variant |
| Alerts.VariantAgreesWithCardBadge | frontend/src/components/dashboard/Alerts.jsx:19-30 | The list and the overview badge agree on high/medium/low; for other strings the list says default where the badge says success |
| Alerts.MockAlerts | frontend/src/components/dashboard/Alerts.jsx:33-55 | The built-in list has three alerts (high, medium, low), stamped now, one hour ago and two hours ago |
| Alerts.DisplayAlerts | frontend/src/components/dashboard/Alerts.jsx:57 | Non-empty alerts are shown unchanged; absent or empty alerts are replaced by the built-in three |
| Alerts.RenderAlerts | frontend/src/components/dashboard/Alerts.jsx:66-79 | Every displayed alert is rendered in order, none dropped, with its variant, icon and text |
| Notifications.MockNotifications | frontend/src/components/notifications/NotificationCenter.jsx:15-43 | The initial list holds three notifications, ids 1 to 3, none read |
| Notifications.InitialUnreadCount | frontend/src/components/notifications/NotificationCenter.jsx:15-48 | The initial unread count is 3 |
| Notifications.Unread | frontend/src/components/notifications/NotificationCenter.jsx:48 | The unread count never exceeds the list length |
| Notifications.UnreadCountsPositions | frontend/src/components/notifications/NotificationCenter.jsx:48 | The unread count is the number of positions whose entry is not read |
| Notifications.MarkRead | frontend/src/components/notifications/NotificationCenter.jsx:52-56 | Every entry with the id gets read = true and its other fields are kept. All other entries are unchanged, and length and order are kept |
| Notifications.MarkAllRead | frontend/src/components/notifications/NotificationCenter.jsx:85 | Every entry gets read = true with its other fields kept; length and order are kept |
| Notifications.MarkReadIdempotent | frontend/src/components/notifications/NotificationCenter.jsx:52-56 | Marking the same id twice equals marking it once |
| Notifications.MarkReadLowersUnread | frontend/src/components/notifications/NotificationCenter.jsx:48-56 | Marking never raises the unread count and lowers it when an entry with the id was unread. Afterwards every entry with the id is read |
| Notifications.MarkAllClearsUnread | frontend/src/components/notifications/NotificationCenter.jsx:85 | After mark-all the unread count is 0, and repeating it changes nothing |
| Notifications.MarkAllIsMarkEach | frontend/src/components/notifications/NotificationCenter.jsx:52-85 | Clicking every id in turn ends in the same list as mark-all |
| Notifications.NotificationCenter.constructor | frontend/src/components/notifications/NotificationCenter.jsx:46 | The state starts as the built-in notifications |
| Notifications.NotificationCenter.UnreadCount | frontend/src/components/notifications/NotificationCenter.jsx:48 | The unread count of the current state is at most the number of notifications |
| Notifications.NotificationCenter.ShowsUnreadControls | frontend/src/components/notifications/NotificationCenter.jsx:67-89 | The badge and the "Mark all as read" button appear only when something is unread, which needs a non-empty list |
| Notifications.NotificationCenter.ShowsEmptyMessage | frontend/src/components/notifications/NotificationCenter.jsx:92-95 | "No notifications" is shown only when there is nothing unread to mark |
| Notifications.NotificationCenter.HandleNotificationClick | frontend/src/components/notifications/NotificationCenter.jsx:50-60 | The state becomes the old list with the clicked id marked read. The unread count does not rise and the ids stay in place. The returned target is the notification's link |
| Notifications.NotificationCenter.MarkAllAsRead | frontend/src/components/notifications/NotificationCenter.jsx:85 | The state becomes the old list with every entry read. The count is 0, the unread controls are hidden and the ids stay in place |

## Left out

- Data fetching: the `axios` calls through react-query and their fallback to fixtures are network I/O and caching. The dashboards take the series and the alerts as parameters, and the fixture arrays of `src/pages/Dashboard.jsx` are not reproduced.
- JavaScript `null` and non-numeric field values are not modelled. A field is either a number (an integer) or `undefined`.
- Floating point: trends are computed exactly over `real`. Near-tie differences caused by float division are not modelled. `Math.round` returning `-0` is modelled as 0, which displays the same.
- Rendering of text: the string forms of values (`${latestData.heart_rate} bpm` shows "undefined bpm" in `src/pages/Dashboard.jsx`), `toLocaleString` date formatting, and ISO timestamp text.
- The "All Health Alerts" tab of `src/pages/Dashboard.jsx` lists every alert with the same border, badge and label rules. It is not modelled separately.
- The notification list's own severity badge uses the same ternary as `Ui.SeverityBadge`. The unread highlight class is not modelled.
- React state updates are taken as applied at once. Batching and re-render timing are not modelled.
- Navigation is modelled only as the link returned by `HandleNotificationClick`. The "View all notifications" button, routing, authentication, charts, the health report (PDF export, sharing), theme handling and the static landing page are UI glue and foreign libraries. frontend/src/pages/Dashboard.jsx is not part of this model: its initials expression repeats `src/pages/Dashboard.jsx:121`.
- Dashboard.ShortSeriesCardShowsNaN: `src/pages/Dashboard.jsx` imports its own stat card (src/components/stat-card), which is not part of this model. The lemma assumes that card behaves like frontend/src/components/stat-card.jsx, which it applies.
- Strings are sequences of Unicode scalar values, not UTF-16 code units. For a name part that starts with a character outside the Basic Multilingual Plane, `n[0]` in the source gives a lone surrogate, while `Dashboard.Initials` gives the whole character. `Dashboard.AlertTypeLabel` is unaffected, because it changes only ASCII characters.
