/**
 * The request handlers: sign-up, sign-in, listing and recording expenses,
 * and the savings-advice request. Each handler takes the parsed request and
 * the shared store and yields a status code with a response body.
 */
module Routes {
  import opened Wrappers
  import opened Schema
  import opened Storage

  /** The owner assumed when the request names none. */
  const MockUserId: string := "mock-user-id"

  const InvalidCredentials: string := "Invalid credentials"
  const NoExpensesProvided: string := "No expenses provided"
  const AdviceFailed: string := "Failed to get AI advice"

  /** The two tips sent whenever the advice path fails. */
  const FallbackTips: seq<string> := [
    "Try tracking your expenses for a week to identify spending patterns.",
    "Consider setting a monthly budget for each category to better control your finances."
  ]

  /** At most this many expenses are forwarded to the advice provider. */
  const AdviceLimit: nat := 10

  /** The JSON body of a response. */
  datatype Body =
    | UserInfo(id: string, email: string)               // `{ user: { id, email } }`, no password
    | Message(text: string)                             // `{ message }`
    | ValidationFailed(issues: seq<Issue>)              // `{ message }` carrying the schema's complaints
    | ExpenseList(expenses: seq<Expense>)
    | CreatedExpense(expense: Expense)
    | Tips(tips: seq<string>)                           // the provider's parsed reply
    | TipsFallback(message: string, tips: seq<string>)

  datatype Response = Response(status: nat, body: Body)

  /** One expense as forwarded to the advice provider. */
  datatype AdviceItem = AdviceItem(amount: real, category: string, date: Date, note: string)

  /**
   * What the advice provider yields for a payload: the tips of its parsed
   * JSON reply, or a failure (transport error, provider error, or a reply
   * that does not parse).
   */
  datatype ProviderOutcome = Replied(tips: seq<string>) | Failed

  // ---------------------------------------------------------------------------
  // Authentication

  /** POST /api/auth/signup. */
  method Signup(store: MemStorage, body: LoginBody, isEmail: string -> bool, now: Timestamp)
    returns (resp: Response)
    requires store.Valid()
    modifies store
    ensures store.Valid()
    ensures store.expenses == old(store.expenses) && store.expenseOrder == old(store.expenseOrder)
    ensures ParseLogin(body, isEmail).Failure? ==>
      && resp == Response(400, ValidationFailed(ParseLogin(body, isEmail).error))
      && store.users == old(store.users) && store.userOrder == old(store.userOrder)
    ensures ParseLogin(body, isEmail).Success? && old(store.EmailTaken(body.email.value)) ==>
      && resp == Response(400, Message(DuplicateEmail))
      && store.users == old(store.users) && store.userOrder == old(store.userOrder)
    ensures ParseLogin(body, isEmail).Success? && !old(store.EmailTaken(body.email.value)) ==>
      && resp.status == 200 && resp.body.UserInfo?
      && resp.body.email == body.email.value
      && resp.body.id !in old(store.users)
      && store.users == old(store.users)[resp.body.id := User(resp.body.id, body.email.value, body.password.value, now)]
      && store.userOrder == old(store.userOrder) + [resp.body.id]
  {
    var data := ParseLogin(body, isEmail);
    if data.Failure? {
      return Response(400, ValidationFailed(data.error));
    }
    var created := store.CreateUser(data.value, now);
    match created
    case Failure(message) =>
      resp := Response(400, Message(message));
    case Success(user) =>
      resp := Response(200, UserInfo(user.id, user.email));
  }

  /** POST /api/auth/signin: succeeds only for a stored email whose stored password matches. */
  function Signin(store: MemStorage, body: LoginBody, isEmail: string -> bool): (resp: Response)
    reads store
    requires store.Valid()
    ensures ParseLogin(body, isEmail).Failure? ==>
      resp == Response(400, ValidationFailed(ParseLogin(body, isEmail).error))
    ensures ParseLogin(body, isEmail).Success? ==>
      (resp.status == 200 <==>
         exists k :: k in store.users && store.users[k].email == body.email.value &&
                     store.users[k].password == body.password.value)
    ensures ParseLogin(body, isEmail).Success? && resp.status != 200 ==>
      resp == Response(401, Message(InvalidCredentials))
    ensures resp.status == 200 ==>
      && resp.body.UserInfo?
      && resp.body.id in store.users
      && store.users[resp.body.id].email == resp.body.email == body.email.value
      && store.users[resp.body.id].password == body.password.value
  {
    match ParseLogin(body, isEmail)
    case Failure(issues) => Response(400, ValidationFailed(issues))
    case Success(data) =>
      match store.GetUserByEmail(data.email)
      case None => Response(401, Message(InvalidCredentials))
      case Some(user) =>
        if user.password != data.password then Response(401, Message(InvalidCredentials))
        else Response(200, UserInfo(user.id, user.email))
  }

  // ---------------------------------------------------------------------------
  // Expenses

  /** `req.query.userId || "mock-user-id"`: an absent or empty parameter falls back to the mock user. */
  function ResolveUserId(query: Option<string>): (userId: string)
    ensures userId != ""
    ensures query.Some? && query.value != "" ==> userId == query.value
    ensures query.None? || query.value == "" ==> userId == MockUserId
  {
    match query
    case Some(id) => if id != "" then id else MockUserId
    case None => MockUserId
  }

  /** GET /api/expenses: the resolved user's expenses, newest first. */
  function ListExpenses(store: MemStorage, userIdQuery: Option<string>): (resp: Response)
    reads store
    requires store.Valid()
    ensures resp.status == 200 && resp.body.ExpenseList?
    ensures forall e :: e in resp.body.expenses <==>
      e in store.expenses.Values && e.userId == ResolveUserId(userIdQuery)
    ensures NewestFirst(resp.body.expenses) && DistinctIds(resp.body.expenses)
  {
    Response(200, ExpenseList(store.GetExpensesByUserId(ResolveUserId(userIdQuery))))
  }

  /** POST /api/expenses: stores the validated body under the resolved user and returns it. */
  method PostExpense(store: MemStorage, body: ExpenseBody, userIdQuery: Option<string>, now: Timestamp)
    returns (resp: Response)
    requires store.Valid()
    modifies store
    ensures store.Valid()
    ensures store.users == old(store.users) && store.userOrder == old(store.userOrder)
    ensures ParseExpense(body).Failure? ==>
      && resp == Response(400, ValidationFailed(ParseExpense(body).error))
      && store.expenses == old(store.expenses) && store.expenseOrder == old(store.expenseOrder)
    ensures ParseExpense(body).Success? ==>
      var data := ParseExpense(body).value;
      && resp.status == 200 && resp.body.CreatedExpense?
      && resp.body.expense ==
         Expense(resp.body.expense.id, ResolveUserId(userIdQuery), data.amount, data.category, data.date, data.note, now)
      && resp.body.expense.id !in old(store.expenses)
      && store.expenses == old(store.expenses)[resp.body.expense.id := resp.body.expense]
      && store.expenseOrder == old(store.expenseOrder) + [resp.body.expense.id]
  {
    var data := ParseExpense(body);
    if data.Failure? {
      return Response(400, ValidationFailed(data.error));
    }
    var expense := store.CreateExpense(data.value, ResolveUserId(userIdQuery), now);
    resp := Response(200, CreatedExpense(expense));
  }

  // ---------------------------------------------------------------------------
  // Savings advice

  /** An expense as the provider sees it: amount, category, date, and the note or `''`. */
  function ToAdviceItem(e: Expense): (r: AdviceItem)
    ensures r.amount == e.amount && r.category == e.category && r.date == e.date
    ensures r.note == "" <==> e.note.None? || e.note == Some("")
    ensures e.note.Some? ==> r.note == e.note.value
  {
    AdviceItem(e.amount, e.category, e.date, e.note.GetOr(""))
  }

  /** `expenses.slice(0, 10).map(...)`: the first ten expenses, in order, reduced to the forwarded fields. */
  function AdvicePayload(expenses: seq<Expense>): (r: seq<AdviceItem>)
    ensures |r| == if |expenses| < AdviceLimit then |expenses| else AdviceLimit
    ensures forall i :: 0 <= i < |r| ==>
      && r[i].amount == expenses[i].amount
      && r[i].category == expenses[i].category
      && r[i].date == expenses[i].date
      && r[i].note == (if expenses[i].note.Some? then expenses[i].note.value else "")
  {
    var first := if |expenses| < AdviceLimit then expenses else expenses[..AdviceLimit];
    seq(|first|, i requires 0 <= i < |first| => ToAdviceItem(first[i]))
  }

  /**
   * The payload reveals nothing beyond the amount, category, date and note of
   * the first ten expenses: two lists that agree on those give the same payload.
   */
  lemma PayloadForgetsTheRest(a: seq<Expense>, b: seq<Expense>)
    requires (if |a| < AdviceLimit then |a| else AdviceLimit) == (if |b| < AdviceLimit then |b| else AdviceLimit)
    requires forall i :: 0 <= i < |a| && i < AdviceLimit ==>
      && a[i].amount == b[i].amount && a[i].category == b[i].category
      && a[i].date == b[i].date && a[i].note.GetOr("") == b[i].note.GetOr("")
    ensures AdvicePayload(a) == AdvicePayload(b)
  {
  }

  /**
   * POST /api/ai-advice. A missing or empty list is refused before the
   * provider is asked; otherwise the provider gets the payload, and any
   * failure yields the fixed fallback tips.
   */
  function Advice(expenses: Option<seq<Expense>>, provider: seq<AdviceItem> -> ProviderOutcome): (resp: Response)
    ensures expenses.None? || expenses.value == [] ==> resp == Response(400, Message(NoExpensesProvided))
    ensures expenses.Some? && expenses.value != [] ==>
      match provider(AdvicePayload(expenses.value))
      case Replied(tips) => resp == Response(200, Tips(tips))
      case Failed => resp == Response(500, TipsFallback(AdviceFailed, FallbackTips))
    ensures resp.status == 500 ==> resp.body.TipsFallback? && |resp.body.tips| == 2
  {
    if expenses.None? || expenses.value == [] then Response(400, Message(NoExpensesProvided))
    else
      match provider(AdvicePayload(expenses.value))
      case Replied(tips) => Response(200, Tips(tips))
      case Failed => Response(500, TipsFallback(AdviceFailed, FallbackTips))
  }

  /** A refused advice request does not depend on the provider: it is never consulted. */
  lemma EmptyAdviceSkipsProvider(expenses: Option<seq<Expense>>, p: seq<AdviceItem> -> ProviderOutcome, q: seq<AdviceItem> -> ProviderOutcome)
    requires expenses.None? || expenses.value == []
    ensures Advice(expenses, p) == Advice(expenses, q)
  {
  }

  // ---------------------------------------------------------------------------
  // A sequential run

  /**
   * Two sign-ups with different emails both succeed with different ids; a
   * third with an email already used fails, and signing in with a wrong
   * password is refused.
   */
  method SignupRun(first: string, second: string, password: string, wrong: string, isEmail: string -> bool)
    returns (r1: Response, r2: Response, r3: Response, r4: Response)
    requires first != second && isEmail(first) && isEmail(second)
    requires Utf16Length(password) >= MinPasswordLength && Utf16Length(wrong) >= MinPasswordLength
    requires wrong != password
    ensures r1.status == 200 && r2.status == 200
    ensures r1.body.UserInfo? && r2.body.UserInfo? && r1.body.id != r2.body.id
    ensures r3 == Response(400, Message(DuplicateEmail))
    ensures r4.status == 401
  {
    var store := new MemStorage();
    assert !store.EmailTaken(first);
    r1 := Signup(store, LoginBody(Some(first), Some(password)), isEmail, 0);
    assert !store.EmailTaken(second);
    r2 := Signup(store, LoginBody(Some(second), Some(password)), isEmail, 1);
    assert store.users[r1.body.id].email == first;
    Utf16LengthAppend(password, "!");
    r3 := Signup(store, LoginBody(Some(first), Some(password + "!")), isEmail, 2);
    r4 := Signin(store, LoginBody(Some(first), Some(wrong)), isEmail);
  }

  /**
   * Nothing ties an expense to an existing account: an expense recorded
   * without a user id on a fresh store belongs to the mock user, who has no
   * account, and it is what listing without a user id returns.
   */
  method ExpenseWithoutAccount(body: ExpenseBody, now: Timestamp) returns (store: MemStorage, resp: Response)
    requires ParseExpense(body).Success?
    ensures store.Valid()
    ensures resp.status == 200 && resp.body.CreatedExpense?
    ensures resp.body.expense.userId == MockUserId
    ensures resp.body.expense in store.expenses.Values
    ensures store.GetUser(MockUserId).None? && !exists k :: k in store.users
    ensures ListExpenses(store, None).body.expenses == [resp.body.expense]
  {
    store := new MemStorage();
    resp := PostExpense(store, body, None, now);
    var listed := ListExpenses(store, None).body.expenses;
    assert store.expenses.Values == {resp.body.expense};
    assert resp.body.expense in listed;
    assert forall i :: 0 <= i < |listed| ==> listed[i] == resp.body.expense;
  }
}
