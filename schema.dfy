/**
 * The records shared by the server and the client (the `users` and `expenses`
 * tables) and the two request-body validators built on them: the sign-up /
 * sign-in schema and the expense insert schema.
 */
module Schema {
  import opened Wrappers

  /** Milliseconds since the epoch, as produced by the server clock. */
  type Timestamp = int

  /** A calendar date of a spend, kept as the (year, month, day) it names. */
  datatype Date = Date(year: int, month: int, day: int)

  /** A stored account. The password is kept as given. */
  datatype User = User(id: string, email: string, password: string, createdAt: Timestamp)

  /** A stored expense. `date` is when the money was spent, `createdAt` when it was recorded. */
  datatype Expense = Expense(
    id: string,
    userId: string,
    amount: real,
    category: string,
    date: Date,
    note: Option<string>,
    createdAt: Timestamp)

  /** What the store needs to create a user: the users row without id and timestamp. */
  datatype InsertUser = InsertUser(email: string, password: string)

  /** What the store needs to create an expense: the expenses row without id, owner and timestamp. */
  datatype InsertExpense = InsertExpense(amount: real, category: string, date: Date, note: Option<string>)

  /** The shortest password the login schema admits. */
  const MinPasswordLength: nat := 6

  /** One complaint of a failed schema check; a failed check reports every complaint it found. */
  datatype Issue =
    | Required(field: string)          // the field is absent or not of the expected type
    | InvalidEmail                     // the email field is a string but not an email address
    | TooShort(field: string, minimum: nat)
    | WrongType(field: string)         // an optional field is present with a value of the wrong type

  /** A sign-up or sign-in body as received; a field that is absent or not a string is None. */
  datatype LoginBody = LoginBody(email: Option<string>, password: Option<string>)

  /** The optional, nullable note of an expense body as received. */
  datatype NoteField = Omitted | Null | Text(text: string) | NotText

  /** An expense body as received; a required field that is absent or ill-typed is None. */
  datatype ExpenseBody = ExpenseBody(amount: Option<real>, category: Option<string>, date: Option<Date>, note: NoteField)

  /**
   * The length of `s` in UTF-16 code units, which is what a JavaScript string's
   * `length` and the schema's minimum count: a character outside the Basic
   * Multilingual Plane takes two units, every other character one.
   */
  function Utf16Length(s: string): (n: nat)
    ensures |s| <= n <= 2 * |s|
    ensures (forall i :: 0 <= i < |s| ==> s[i] as int < 0x10000) ==> n == |s|
  {
    if s == [] then 0 else (if s[0] as int >= 0x10000 then 2 else 1) + Utf16Length(s[1..])
  }

  lemma {:induction false} Utf16LengthAppend(a: string, b: string)
    ensures Utf16Length(a + b) == Utf16Length(a) + Utf16Length(b)
  {
    if a == [] {
      assert a + b == b;
    } else {
      assert (a + b)[0] == a[0] && (a + b)[1..] == a[1..] + b;
      Utf16LengthAppend(a[1..], b);
    }
  }

  /** Three emoji are six UTF-16 code units, so they make a password long enough. */
  lemma ThreeEmojiPasswordAccepted(email: string, isEmail: string -> bool)
    requires isEmail(email)
    ensures ParseLogin(LoginBody(Some(email), Some("\U{1F600}\U{1F600}\U{1F600}")), isEmail).Success?
  {
  }

  function EmailIssues(email: Option<string>, isEmail: string -> bool): seq<Issue> {
    match email
    case None => [Required("email")]
    case Some(e) => if isEmail(e) then [] else [InvalidEmail]
  }

  function PasswordIssues(password: Option<string>): seq<Issue> {
    match password
    case None => [Required("password")]
    case Some(p) => if Utf16Length(p) < MinPasswordLength then [TooShort("password", MinPasswordLength)] else []
  }

  /**
   * The login schema: an email address (the address syntax is the predicate
   * `isEmail`) and a password of at least six UTF-16 code units. All
   * complaints are collected, email first.
   */
  function ParseLogin(body: LoginBody, isEmail: string -> bool): (r: Result<InsertUser, seq<Issue>>)
    ensures r.Success? <==>
      body.email.Some? && isEmail(body.email.value) &&
      body.password.Some? && Utf16Length(body.password.value) >= MinPasswordLength
    ensures r.Success? ==> r.value == InsertUser(body.email.value, body.password.value)
    ensures r.Failure? ==> |r.error| > 0
    ensures r.Failure? ==> forall x :: x in r.error ==>
      x in [Required("email"), InvalidEmail, Required("password"), TooShort("password", MinPasswordLength)]
    ensures r.Failure? ==>
      (InvalidEmail in r.error <==> body.email.Some? && !isEmail(body.email.value)) &&
      (TooShort("password", MinPasswordLength) in r.error <==>
         body.password.Some? && Utf16Length(body.password.value) < MinPasswordLength) &&
      (Required("email") in r.error <==> body.email.None?) &&
      (Required("password") in r.error <==> body.password.None?)
  {
    var issues := EmailIssues(body.email, isEmail) + PasswordIssues(body.password);
    if issues == [] then Success(InsertUser(body.email.value, body.password.value))
    else Failure(issues)
  }

  function Missing<T>(field: string, value: Option<T>): seq<Issue> {
    if value.None? then [Required(field)] else []
  }

  function NoteIssues(note: NoteField): seq<Issue> {
    if note.NotText? then [WrongType("note")] else []
  }

  /** The note an accepted body stores: its text, or none when omitted or null. */
  function StoredNote(note: NoteField): Option<string> {
    if note.Text? then Some(note.text) else None
  }

  /**
   * The expense insert schema: amount, category and date are required; the
   * note may be omitted or null, but when present otherwise it must be a
   * string. Complaints come in field order.
   */
  function ParseExpense(body: ExpenseBody): (r: Result<InsertExpense, seq<Issue>>)
    ensures r.Success? <==> body.amount.Some? && body.category.Some? && body.date.Some? && !body.note.NotText?
    ensures r.Success? ==>
      && r.value.amount == body.amount.value && r.value.category == body.category.value
      && r.value.date == body.date.value
      && (r.value.note.Some? <==> body.note.Text?)
      && (body.note.Text? ==> r.value.note.value == body.note.text)
    ensures r.Failure? ==>
      (Required("amount") in r.error <==> body.amount.None?) &&
      (Required("category") in r.error <==> body.category.None?) &&
      (Required("date") in r.error <==> body.date.None?) &&
      (WrongType("note") in r.error <==> body.note.NotText?) &&
      |r.error| > 0
    ensures r.Failure? ==> forall x :: x in r.error ==>
      x in [Required("amount"), Required("category"), Required("date"), WrongType("note")]
  {
    var issues := Missing("amount", body.amount) + Missing("category", body.category) + Missing("date", body.date)
      + NoteIssues(body.note);
    if issues == [] then Success(InsertExpense(body.amount.value, body.category.value, body.date.value, StoredNote(body.note)))
    else Failure(issues)
  }
}
