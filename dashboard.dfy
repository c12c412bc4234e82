/**
 * The request handlers of the dashboard as one in-memory state machine: the
 * session's `logged_in` flag, the singleton conditions row and the
 * append-only motors table are the fields of a `Dashboard` object, and each
 * handler is a method that checks its guard, validates its form and updates
 * the tables.
 */
module Dashboard {
  import opened Wrappers
  import opened Readings

  /** The static credential table: user name to password. */
  const AUTHORIZED_USERS: map<string, string> := map["admin" := "password123"]

  const INVALID_CREDENTIALS: string := "Invalid username or password."
  const ALL_FIELDS_REQUIRED: string := "All fields are required."

  datatype Verb = Get | Post

  /** The pages a handler renders or redirects to. */
  datatype Page = LoginPage | IndexPage | SetConditionsPage | AddMotorPage

  /** What a handler answers with, in place of an HTTP response. */
  datatype Response =
    | Redirect(to: Page)                          // redirect(url_for(...))
    | Form(page: Page, message: Option<string>)   // a form page, with or without a message
    | ConditionsForm(conditions: Thresholds)      // the threshold form filled with the stored row
    | Chart(okCount: nat, notOkCount: nat)        // the analysis page: a pie chart of the two totals
    | ServerError                                 // "Database connection error", 500

  /** Python's `not field` on a form value: the field is missing or the empty string. */
  function Blank(field: Option<string>): (b: bool)
    ensures b <==> field == None || field == Some("")
  {
    field.None? || field.value == ""
  }

  /** The login check: the user name is a key of the table and the password is the one stored for it. */
  function Authorized(username: Option<string>, password: Option<string>): (ok: bool)
    ensures ok <==> username == Some("admin") && password == Some("password123")
  {
    username.Some? && username.value in AUTHORIZED_USERS && password == Some(AUTHORIZED_USERS[username.value])
  }

  class Dashboard {
    /** `session['logged_in']`; popping it and never having set it are both `false`. */
    var loggedIn: bool
    /** The conditions row with id 1. */
    var thresholds: Thresholds
    /** The motors table, oldest row first. */
    var motors: seq<Motor>
    /** For each row, the thresholds that were in force when it was inserted. */
    ghost var history: seq<Thresholds>

    /**
     * Every row has a name and carries the verdicts of the thresholds in force
     * when it was inserted, whatever the thresholds are now.
     */
    ghost predicate Valid()
      reads this
    {
      && |history| == |motors|
      && forall i :: 0 <= i < |motors| ==> motors[i].name != "" && DerivedFrom(motors[i], history[i])
    }

    /** A fresh server: no one logged in, the seeded conditions row, an empty motors table. */
    constructor (seeded: Thresholds)
      ensures Valid()
      ensures !loggedIn && thresholds == seeded && motors == []
    {
      loggedIn := false;
      thresholds := seeded;
      motors := [];
      history := [];
    }

    /** A table whose rows all satisfy the invariant has only labelled rows. */
    lemma RowsLabelled()
      requires Valid()
      ensures forall i :: 0 <= i < |motors| ==> Labelled(motors[i])
    {
    }

    /** `/login`: GET shows the form; POST grants the session flag for the one authorised pair. */
    method Login(verb: Verb, username: Option<string>, password: Option<string>) returns (r: Response)
      requires Valid()
      modifies this`loggedIn
      ensures Valid()
      ensures verb == Get ==> r == Form(LoginPage, None) && loggedIn == old(loggedIn)
      ensures verb == Post && Authorized(username, password) ==> r == Redirect(SetConditionsPage) && loggedIn
      ensures verb == Post && !Authorized(username, password) ==>
                r == Form(LoginPage, Some(INVALID_CREDENTIALS)) && loggedIn == old(loggedIn)
    {
      if verb == Post {
        if Authorized(username, password) {
          loggedIn := true;
          return Redirect(SetConditionsPage);
        } else {
          return Form(LoginPage, Some(INVALID_CREDENTIALS));
        }
      }
      return Form(LoginPage, None);
    }

    /** `/logout`: drops the session flag, whatever it was, so a second logout changes nothing. */
    method Logout() returns (r: Response)
      requires Valid()
      modifies this`loggedIn
      ensures Valid()
      ensures !loggedIn && r == Redirect(IndexPage)
    {
      loggedIn := false;
      return Redirect(IndexPage);
    }

    /**
     * `/set_conditions`: only for a logged-in session. GET shows the stored
     * row; POST replaces all three thresholds and then logs the operator out.
     * `parse` is the numeric conversion of a submitted field; `dbUp` says
     * whether the database connection opens.
     */
    method SetConditions(verb: Verb, currentField: Option<string>, temperatureField: Option<string>,
                         vibrationField: Option<string>, parse: string -> real, dbUp: bool)
      returns (r: Response)
      requires Valid()
      modifies this
      ensures Valid()
      // The stored readings and their statuses are never touched, whatever the outcome.
      ensures motors == old(motors) && history == old(history)
      // Changing the thresholds always ends the session.
      ensures thresholds != old(thresholds) ==> !loggedIn
      ensures !old(loggedIn) ==> r == Redirect(LoginPage) && unchanged(this)
      ensures old(loggedIn) && verb == Get ==>
                unchanged(this) && r == (if dbUp then ConditionsForm(thresholds) else ServerError)
      ensures old(loggedIn) && verb == Post && (Blank(currentField) || Blank(temperatureField) || Blank(vibrationField)) ==>
                unchanged(this) && r == Form(SetConditionsPage, Some(ALL_FIELDS_REQUIRED))
      ensures old(loggedIn) && verb == Post && !Blank(currentField) && !Blank(temperatureField) && !Blank(vibrationField) ==>
                if dbUp then
                  && thresholds == Thresholds(parse(currentField.value), parse(temperatureField.value), parse(vibrationField.value))
                  && !loggedIn
                  && r == Redirect(IndexPage)
                else
                  unchanged(this) && r == ServerError
    {
      if !loggedIn {
        return Redirect(LoginPage);
      }
      if verb == Post {
        if Blank(currentField) || Blank(temperatureField) || Blank(vibrationField) {
          return Form(SetConditionsPage, Some(ALL_FIELDS_REQUIRED));
        }
        var current := parse(currentField.value);
        var temperature := parse(temperatureField.value);
        var vibration := parse(vibrationField.value);
        if !dbUp {
          return ServerError;
        }
        thresholds := Thresholds(current, temperature, vibration);
        loggedIn := false;
        return Redirect(IndexPage);
      } else {
        if !dbUp {
          return ServerError;
        }
        return ConditionsForm(thresholds);
      }
    }

    /**
     * `/add_motor`: GET shows the empty form; POST judges the three readings
     * against the thresholds in force and appends one row. Open to anyone.
     */
    method AddMotor(verb: Verb, nameField: Option<string>, currentField: Option<string>,
                    temperatureField: Option<string>, vibrationField: Option<string>,
                    parse: string -> real, dbUp: bool)
      returns (r: Response)
      requires Valid()
      modifies this`motors, this`history
      ensures Valid()
      ensures verb == Get ==> r == Form(AddMotorPage, None) && unchanged(this)
      ensures verb == Post && (Blank(nameField) || Blank(currentField) || Blank(temperatureField) || Blank(vibrationField)) ==>
                unchanged(this) && r == Form(AddMotorPage, Some(ALL_FIELDS_REQUIRED))
      ensures verb == Post && !Blank(nameField) && !Blank(currentField) && !Blank(temperatureField) && !Blank(vibrationField) ==>
                if dbUp then
                  && motors == old(motors) + [Derive(nameField.value, parse(currentField.value),
                                                     parse(temperatureField.value), parse(vibrationField.value),
                                                     thresholds)]
                  && history == old(history) + [thresholds]
                  && r == Redirect(IndexPage)
                else
                  unchanged(this) && r == ServerError
      // The analysis totals of the extended table are the old totals plus the new row's own.
      ensures |motors| == |old(motors)| + 1 ==>
                && OkCount(motors) == OkCount(old(motors)) + OkCount([motors[|old(motors)|]])
                && NotOkCount(motors) == NotOkCount(old(motors)) + NotOkCount([motors[|old(motors)|]])
    {
      if verb == Post {
        if Blank(nameField) || Blank(currentField) || Blank(temperatureField) || Blank(vibrationField) {
          return Form(AddMotorPage, Some(ALL_FIELDS_REQUIRED));
        }
        var current := parse(currentField.value);
        var temperature := parse(temperatureField.value);
        var vibration := parse(vibrationField.value);
        if !dbUp {
          return ServerError;
        }
        var row := Derive(nameField.value, current, temperature, vibration, thresholds);
        LabelCountAppend(motors, row, OK);
        LabelCountAppend(motors, row, NOT_OK);
        motors := motors + [row];
        history := history + [thresholds];
        return Redirect(IndexPage);
      }
      return Form(AddMotorPage, None);
    }

    /**
     * `/analysis`: the two totals over all three status columns; since every
     * stored status is a label, together they are three per row.
     */
    method Analysis(dbUp: bool) returns (r: Response)
      requires Valid()
      ensures !dbUp ==> r == ServerError
      ensures dbUp ==> r == Chart(OkCount(motors), NotOkCount(motors))
      ensures r.Chart? ==> r.okCount + r.notOkCount == 3 * |motors|
      ensures r.Chart? && motors == [] ==> r.okCount == 0 && r.notOkCount == 0
    {
      if !dbUp {
        return ServerError;
      }
      RowsLabelled();
      CountsCoverTable(motors);
      return Chart(OkCount(motors), NotOkCount(motors));
    }
  }

  /**
   * The session lifecycle seen from a client: anonymous, rejected at the
   * threshold form, logged in, logged out again by a threshold update, and
   * the readings judged against the thresholds of their moment.
   */
  method SessionWalkthrough()
  {
    var parse := (s: string) => if s == "8" then 8.0 else if s == "9" then 9.0 else if s == "85" then 85.0 else 5.0;
    var d := new Dashboard(Thresholds(10.0, 80.0, 5.0));
    var r := d.SetConditions(Post, Some("8"), Some("85"), Some("5"), parse, true);
    assert r == Redirect(LoginPage) && d.thresholds == Thresholds(10.0, 80.0, 5.0);
    r := d.Login(Post, Some("admin"), Some("wrong"));
    assert r == Form(LoginPage, Some(INVALID_CREDENTIALS)) && !d.loggedIn;
    r := d.Login(Post, Some("admin"), Some("password123"));
    assert r == Redirect(SetConditionsPage) && d.loggedIn;
    r := d.AddMotor(Post, Some("pump"), Some("9"), Some("85"), Some("5"), parse, true);
    assert d.motors[0].currentStatus == OK && d.motors[0].temperatureStatus == NOT_OK;
    assert d.motors[0].vibrationStatus == NOT_OK;
    r := d.SetConditions(Post, Some("8"), Some("85"), Some("5"), parse, true);
    assert !d.loggedIn && d.thresholds == Thresholds(8.0, 85.0, 5.0);
    assert d.motors[0].currentStatus == OK;
    // The stored verdict on current (9 < 10) is no longer the one the new threshold 8 would give.
    assert !DerivedFrom(d.motors[0], d.thresholds);
    r := d.Analysis(true);
    assert r == Chart(1, 2);
    r := d.Logout();
    r := d.Logout();
    assert !d.loggedIn && r == Redirect(IndexPage);
  }
}
