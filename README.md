# Motor checklist dashboard: a Dafny model

This project models the request handlers of the motor-checklist dashboard
(`checklist_system/app0.py`). An operator records motor readings: current,
temperature and vibration. Each reading is judged against a configurable
threshold, and the dashboard reports how many of the stored verdicts are
`OK` and how many are `NOT OK`.

The model is one in-memory state machine, the class `Dashboard.Dashboard`. Its fields are:

- `loggedIn`: the session's `logged_in` flag;
- `thresholds`: the singleton conditions row (id 1);
- `motors`: the append-only motors table, oldest row first;
- `history`: a ghost field. For each row, it holds the thresholds that were in force when that row was inserted.

Each handler is a method. It checks its guard, validates its form, and then updates
the fields. Its postcondition gives the response and the complete new state for every
branch of the source.

`Dashboard.Valid()` is the object invariant. Every stored row has a non-empty name, and
its three statuses are the verdicts of the thresholds in `history`, not of the thresholds
now in force. This is how "statuses are frozen at insertion time" is stated: `SetConditions`
never touches `motors` or `history`. `Readings.StoredStatusCanBeStale` shows that a stored
row can then disagree with the current thresholds.

The pure logic is in module `Readings`:

- status derivation (`StatusFor`, `Derive`): `OK` exactly when a reading is strictly below its threshold;
- the analysis totals (`ColumnCount`, `LabelCount`, `OkCount`, `NotOkCount`), written as three per-column sums, as the source writes them.

Lemmas check the totals against an independent reference: the multiset of all status
cells of the table. They also prove that the two totals add up to three per row whenever
every row is labelled. The object invariant guarantees that for every table the handlers
can build.

Boundary parameters:

- Submitted form fields are `Option<string>`. `Blank` is Python's `not field`: the field is missing or empty.
- The numeric conversion `float()` is the parameter `parse: string -> real`.
- Whether the database connection opens is the parameter `dbUp: bool`. A failed connection answers `ServerError` and changes nothing. It is checked at the same point of each handler as in the source: after validation and parsing for the POST forms.

Handlers answer with a `Response` value (redirect, form, filled threshold form, chart
totals, server error), not an HTTP response.

Both forms reject a field that is missing or empty, as Python's `not x` does. A failed
login leaves the session flag as it was, so an operator who is already logged in stays
logged in. Clearing the session after a
successful threshold update looks unintended, but the model keeps it as written, and
`SetConditions` states it as `thresholds != old(thresholds) ==> !loggedIn`.

`Dashboard.SessionWalkthrough` is a client method. It uses only the handlers' contracts to
walk through the session lifecycle and the sample reading (9, 85, 5) against (10, 80, 5).

## Model

| member | source | states |
|---|---|---|
| Readings.StatusFor | checklist_system/app0.py:136-138 | the label is one of the two labels; it is `OK` iff the reading is strictly below the threshold and `NOT OK` iff the threshold is at most the reading |
| Readings.Derive | checklist_system/app0.py:132-143 | the inserted row keeps the submitted name and raw values, and each of its statuses is the verdict of its reading against the thresholds read at insertion |
| Readings.DerivedFromIsDerive | checklist_system/app0.py:136-138 | a row whose statuses agree with a set of thresholds is exactly the row `Derive` builds from its values: the verdicts are determined |
| Readings.AtThresholdIsNotOk | checklist_system/app0.py:136-138 | a reading equal to its threshold is `NOT OK` |
| Readings.SampleReading | checklist_system/app0.py:136-138 | thresholds (10, 80, 5) and reading (9, 85, 5) give (`OK`, `NOT OK`, `NOT OK`) |
| Readings.StoredStatusCanBeStale | checklist_system/app0.py:89-93 | a row judged under old thresholds can fail to agree with new ones; since `SetConditions` leaves `motors` as it was, `SessionWalkthrough` shows such a stale row on the object after a threshold update |
| Readings.ColumnCount | checklist_system/app0.py:160-162 | one column's count of a label is at most the number of rows and is 0 for an empty table |
| Readings.LabelCount | checklist_system/app0.py:160-166 | the total of a label over the three columns is at most three per row |
| Readings.OkCount | checklist_system/app0.py:160-162 | `ok_count` is at most three per row and 0 for an empty table |
| Readings.NotOkCount | checklist_system/app0.py:164-166 | `not_ok_count` is at most three per row and 0 for an empty table |
| Readings.Labels | checklist_system/app0.py:156-157 | the status cells of the table, three per row |
| Readings.LabelCountIsMultiplicity | checklist_system/app0.py:160-166 | the three per-column sums of a label equal the number of cells of the whole table holding that label |
| Readings.CountsCoverTable | checklist_system/app0.py:160-166 | if every row's statuses are labels, `ok_count + not_ok_count` is three times the number of rows |
| Readings.ColumnCountAppend | checklist_system/app0.py:160-162 | appending a row raises a column's count by one exactly when the new row holds the label in that column |
| Readings.LabelCountAppend | checklist_system/app0.py:160-166 | the totals after one more row are the old totals plus that row's own |
| Dashboard.Blank | checklist_system/app0.py:78 | a field is blank exactly when it is missing or the empty string; the same test guards the motor form at line 118 |
| Dashboard.Authorized | checklist_system/app0.py:15-17 | the credential check accepts only the pair (`admin`, `password123`); a missing user name or password is rejected |
| Dashboard.Dashboard.constructor | checklist_system/app0.py:70-71 | a new session is not logged in, the conditions row is the seeded one, and the motors table is empty |
| Dashboard.Dashboard.RowsLabelled | checklist_system/app0.py:136-143 | every row the handlers store has label statuses |
| Dashboard.Dashboard.Login | checklist_system/app0.py:40-50 | GET renders the form and changes nothing; POST with the authorised pair sets the flag and redirects to the threshold form; any other pair renders the invalid-credentials message and leaves the flag as it was |
| Dashboard.Dashboard.Logout | checklist_system/app0.py:52-55 | the flag is cleared whatever it was, so logging out twice is the same as once; tables untouched; redirect to the listing |
| Dashboard.Dashboard.SetConditions | checklist_system/app0.py:68-108 | without the flag: redirect to login and nothing changes, for GET and POST; GET shows the stored row; a blank field re-renders the form with nothing changed; a connection failure changes nothing; otherwise all three thresholds are replaced by the parsed fields and the operator is logged out; rows and their statuses are never touched; a threshold change always clears the flag |
| Dashboard.Dashboard.AddMotor | checklist_system/app0.py:110-148 | GET and any blank field change nothing; a connection failure changes nothing; otherwise exactly one row is appended, holding the name, the parsed readings and their verdicts against the current thresholds; existing rows, thresholds and session are unchanged; the analysis totals grow by exactly the new row's labels |
| Dashboard.Dashboard.Analysis | checklist_system/app0.py:150-166 | a connection failure gives a server error; otherwise the chart carries `ok_count` and `not_ok_count`, which add up to three per row and are both 0 for an empty table |

## Left out

- The motor listing route `/` (`index`) is not modelled: it only reads and renders the table. Handlers that redirect to it answer `Redirect(IndexPage)`.
- Connection-string assembly, `pyodbc.connect`, commit and close, and the logging of connection errors are I/O. Only the outcome of the connection is kept, as `dbUp`.
- The SQL text is not modelled. The `motors` sequence and the `thresholds` record stand for the table contents. A row's database id is its position in the sequence.
- `float()` is the total parameter `parse`. Its exception on non-numeric text (an unhandled 500) is not modelled. IEEE NaN and infinities are not modelled either: readings are mathematical reals.
- A missing conditions row (`fetchone()` returning `None`) is not modelled. The singleton row always exists.
- The pie chart, its colours and labels, the PNG buffer and its base64 encoding are foreign library calls. Only the two totals drawn in the chart are kept. For an empty table the model answers `Chart(0, 0)`; what the plotting library draws for a zero total is not captured.
- Template rendering, `url_for`, the secret key, `Config` loading and `app.run` are framework glue and are not modelled.
- The model has one client: `loggedIn` is that browser's session flag, while the two tables are shared. Other browsers' sessions, which a logout or a threshold update does not clear, are not modelled.
- Concurrent requests are not modelled. Each handler runs atomically on the object, so there is no last-writer-wins interleaving on the database.
