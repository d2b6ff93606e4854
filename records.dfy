/** The three tables' rows and the request bodies the handlers read.

    Amounts are whole cents: the source stores floats, whose rounding is
    not modelled.  A request body is given as the fields it holds: a field
    is `None` when its key is absent from the JSON object. */
module Records {
  import opened Wrappers
  import opened Dates

  datatype User = User(id: int, username: string, email: string, passwordHash: string, createdAt: DateTime)

  /** `User.to_dict()`: everything but the password hash. */
  datatype UserView = UserView(id: int, username: string, email: string, createdAt: DateTime)

  function View(u: User): (v: UserView)
    ensures v.id == u.id && v.username == u.username && v.email == u.email && v.createdAt == u.createdAt
  {
    UserView(u.id, u.username, u.email, u.createdAt)
  }

  datatype Expense = Expense(id: int, userId: int, amount: int, description: string, category: string, date: DateTime)

  datatype Income = Income(id: int, userId: int, amount: int, description: string, date: DateTime)

  datatype RegisterBody = RegisterBody(username: Option<string>, email: Option<string>, password: Option<string>)

  datatype LoginBody = LoginBody(username: Option<string>, password: Option<string>)

  datatype ExpenseBody = ExpenseBody(
    amount: Option<int>, description: Option<string>, category: Option<string>, date: Option<DateField>)

  datatype IncomeBody = IncomeBody(amount: Option<int>, description: Option<string>, date: Option<DateField>)

  /** The errors the handlers answer with.  Their HTTP status codes are 400
      (missing fields, duplicate user), 401 (invalid credentials, no
      identity), 404 (no such row of the caller) and 501 (no PDF library). */
  datatype Error = MissingFields | Duplicate | InvalidCredentials | Unauthorized | NotFound | Unavailable

  datatype Result<T> = Success(value: T) | Failure(error: Error)
}
