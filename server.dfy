/**
 * The server's module-level state, `users` and `budgets`, and its route
 * handlers. Each handler is a method that reassigns or appends to the two
 * lists; its postcondition ties the new lists to the old ones through the
 * functions of the Ledger and Accounts modules, whose properties are proved
 * there.
 */
module Server {
  import opened Js
  import opened Seqs
  import opened Auth
  import opened Accounts
  import opened Ledger

  datatype SignupResult =
    | Registered(userId: UserId, username: Value)   // 201 with a token for these claims
    | MissingFields                                  // 400 'All fields are required'
    | Conflict                                       // 409 'Username or email already exists'
    | HashRejected                                   // the hashing promise rejects: no response

  datatype LoginResult =
    | LoggedIn(userId: UserId, username: Value)      // 200 with a token for these claims
    | BadCredentials                                 // 401 'Invalid username or password'
    | CompareRejected                                // the comparison promise rejects: no response

  /** A request to one of the protected routes. */
  datatype Request =
    | PostIncome(body: Body)                 // POST /api/income
    | PostExpense(body: Body)                // POST /api/expense
    | PostSavings(body: Body)                // POST /api/savings
    | PostGoals(body: Body)                  // POST /api/goals
    | PutGoal(id: string, patch: Body)       // PUT /api/goals/:id
    | DeleteGoalById(id: string)             // DELETE /api/goals/:id
    | PostBudget(body: Body)                 // POST /api/budget
    | GetBudget(query: Body)                 // GET /api/budget
    | PostBudgetReset(body: Body)            // POST /api/budget/reset
    | GetGoals                               // GET /api/goals

  datatype Response =
    | Created                                // 201 with a confirmation message
    | Done                                   // 200 with a confirmation message
    | GoalNotFound                           // 404 'Goal not found'
    | AccessDenied                           // 401 'Access denied'
    | InvalidToken                           // 401 'Invalid token'
    | ServerError                            // 500: a TypeError thrown inside the handler
    | MonthBody(view: MonthView)             // 200 with the four lists
    | GoalsBody(goals: seq<Value>)           // 200 with the goal list

  class Store {
    var users: seq<User>
    var budgets: seq<Entry>

    ghost predicate Valid()
      reads this
    {
      Registry(users)
    }

    constructor ()
      ensures Valid() && users == [] && budgets == []
    {
      users := [];
      budgets := [];
    }

    /**
     * `POST /api/signup`. The caller supplies the fresh user id and the
     * password hashing, which answers None where the library rejects.
     */
    method Signup(body: Body, userId: UserId, hash: Value -> Option<Hash>) returns (r: SignupResult)
      requires Valid()
      requires forall i :: 0 <= i < |users| ==> users[i].userId != userId
      modifies this
      ensures Valid() && budgets == old(budgets)
      ensures var username, email, password := Get(body, "username"), Get(body, "email"), Get(body, "password");
        if Falsy(username) || Falsy(email) || Falsy(password) then r == MissingFields && users == old(users)
        else if Taken(old(users), username, email) then r == Conflict && users == old(users)
        else if hash(password).None? then r == HashRejected && users == old(users)
        else r == Registered(userId, username) && users == old(users) + [User(userId, username, email, hash(password).value)]
    {
      var username, email, password := Get(body, "username"), Get(body, "email"), Get(body, "password");
      if Falsy(username) || Falsy(email) || Falsy(password) {
        return MissingFields;
      }
      if Taken(users, username, email) {
        return Conflict;
      }
      match hash(password)
      case None =>
        return HashRejected;
      case Some(h) =>
        var u := User(userId, username, email, h);
        SignupKeepsRegistry(users, u);
        users := users + [u];
        return Registered(userId, username);
    }

    /**
     * `POST /api/login`. The password comparison is a parameter, answering
     * None where the library rejects.
     */
    method Login(body: Body, matches: (Value, Hash) -> Option<bool>) returns (r: LoginResult)
      ensures FindByUsername(users, Get(body, "username")).None? ==> r == BadCredentials
      ensures FindByUsername(users, Get(body, "username")).Some? ==>
        var u := users[FindByUsername(users, Get(body, "username")).value];
        match matches(Get(body, "password"), u.passwordHash)
        case None => r == CompareRejected
        case Some(ok) => r == if ok then LoggedIn(u.userId, u.username) else BadCredentials
    {
      match FindByUsername(users, Get(body, "username"))
      case None =>
        return BadCredentials;
      case Some(k) =>
        var u := users[k];
        match matches(Get(body, "password"), u.passwordHash)
        case None =>
          return CompareRejected;
        case Some(ok) =>
          if !ok {
            return BadCredentials;
          }
          return LoggedIn(u.userId, u.username);
    }

    /**
     * Signing up and then logging in with the same username and password logs
     * in as the new user, when the hashing library accepts the password and
     * recognises it against its own hash and the username is a primitive value.
     */
    method SignupThenLogin(body: Body, userId: UserId, hash: Value -> Option<Hash>, matches: (Value, Hash) -> Option<bool>)
      returns (r: LoginResult)
      requires Valid()
      requires forall i :: 0 <= i < |users| ==> users[i].userId != userId
      requires !Falsy(Get(body, "username")) && !Falsy(Get(body, "email")) && !Falsy(Get(body, "password"))
      requires IsPrimitive(Get(body, "username"))
      requires !Taken(users, Get(body, "username"), Get(body, "email"))
      requires hash(Get(body, "password")).Some?
      requires matches(Get(body, "password"), hash(Get(body, "password")).value) == Some(true)
      modifies this
      ensures Valid()
      ensures users == old(users) + [User(userId, Get(body, "username"), Get(body, "email"), hash(Get(body, "password")).value)]
      ensures budgets == old(budgets)
      ensures r == LoggedIn(userId, Get(body, "username"))
    {
      var u := User(userId, Get(body, "username"), Get(body, "email"), hash(Get(body, "password")).value);
      FindAfterSignup(users, u);
      var s := Signup(body, userId, hash);
      r := Login(body, matches);
    }

    /** `POST /api/income`. */
    method AddIncome(uid: UserId, body: Body) returns (r: Response)
      modifies this
      ensures r == Created && users == old(users)
      ensures budgets == old(budgets) + [IncomeEntry(uid, body)]
    {
      budgets := budgets + [IncomeEntry(uid, body)];
      return Created;
    }

    /** `POST /api/expense`. */
    method AddExpense(uid: UserId, body: Body) returns (r: Response)
      modifies this
      ensures r == Created && users == old(users)
      ensures budgets == old(budgets) + [ExpenseEntry(uid, body)]
    {
      budgets := budgets + [ExpenseEntry(uid, body)];
      return Created;
    }

    /** `POST /api/savings`. */
    method AddSavings(uid: UserId, body: Body) returns (r: Response)
      modifies this
      ensures r == Created && users == old(users)
      ensures budgets == old(budgets) + [SavingsEntry(uid, body)]
    {
      budgets := budgets + [SavingsEntry(uid, body)];
      return Created;
    }

    /** `POST /api/goals`. */
    method AddGoal(uid: UserId, body: Body) returns (r: Response)
      modifies this
      ensures r == Created && users == old(users)
      ensures budgets == old(budgets) + [GoalEntry(uid, body)]
    {
      budgets := budgets + [GoalEntry(uid, body)];
      return Created;
    }

    /**
     * `PUT /api/goals/:id`: a `map` over the whole list that merges the patch
     * into every target and raises `found` on the way. A goal of the caller's
     * with null data makes the callback throw, and the list is not reassigned.
     */
    method UpdateGoal(uid: UserId, id: string, patch: Body) returns (r: Response)
      modifies this
      ensures users == old(users)
      ensures AnyThrows(old(budgets), uid) ==> r == ServerError && budgets == old(budgets)
      ensures !AnyThrows(old(budgets), uid) ==>
        budgets == MergeGoals(old(budgets), uid, id, patch) &&
        r == if AnyTarget(old(budgets), uid, id) then Done else GoalNotFound
    {
      var found := false;
      var next: seq<Entry> := [];
      var i := 0;
      while i < |budgets|
        invariant 0 <= i <= |budgets|
        invariant |next| == i
        invariant forall j :: 0 <= j < i ==> next[j] == Merged(budgets[j], uid, id, patch)
        invariant found <==> exists j :: 0 <= j < i && IsTarget(budgets[j], uid, id)
        invariant forall j :: 0 <= j < i ==> !IdReadThrows(budgets[j], uid)
      {
        var b := budgets[i];
        var hit := false;
        if b.userId == uid && b.kind == Goal {
          if b.data == Null || b.data == Undefined {
            assert IdReadThrows(budgets[i], uid);
            return ServerError;
          }
          hit := b.data.Obj? && StrictEq(Get(b.data.fields, "id"), Str(id));
        }
        if hit {
          found := true;
          next := next + [b.(data := Obj(b.data.fields + patch))];
        } else {
          next := next + [b];
        }
        i := i + 1;
      }
      budgets := next;
      if !found {
        return GoalNotFound;
      }
      return Done;
    }

    /** `DELETE /api/goals/:id`: a `filter`, which throws like update-goal's `map`. */
    method DeleteGoal(uid: UserId, id: string) returns (r: Response)
      modifies this
      ensures users == old(users)
      ensures AnyThrows(old(budgets), uid) ==> r == ServerError && budgets == old(budgets)
      ensures !AnyThrows(old(budgets), uid) ==> r == Done && budgets == WithoutGoal(old(budgets), uid, id)
    {
      if AnyThrows(budgets, uid) {
        return ServerError;
      }
      budgets := WithoutGoal(budgets, uid, id);
      return Done;
    }

    /**
     * `POST /api/budget`: drop the caller's slice for the body's month and year,
     * then push the four batches in turn. A batch that is truthy but not an
     * array has no `forEach`: the handler throws there, after the slice was
     * dropped and the earlier batches pushed.
     */
    method SaveMonth(uid: UserId, body: Body) returns (r: Response)
      modifies this
      ensures users == old(users)
      ensures var month, year := Get(body, "month"), Get(body, "year");
        var bad := FirstBad(Batches(body));
        budgets == WithoutSlice(old(budgets), uid, month, year) + Stamped(uid, month, year, BatchLists(body), bad) &&
        r == if bad == |BatchKinds| then Created else ServerError
    {
      var month, year := Get(body, "month"), Get(body, "year");
      budgets := WithoutSlice(budgets, uid, month, year);
      var pushed := PushBatches(uid, month, year, Batches(body), BatchLists(body));
      return if pushed == |BatchKinds| then Created else ServerError;
    }

    /**
     * The four `forEach` loops of `POST /api/budget`, in order, stopping at the
     * first batch that is not an array; `pushed` is how many ran to completion.
     */
    method PushBatches(uid: UserId, month: Value, year: Value, batches: seq<Option<seq<Value>>>, lists: seq<seq<Value>>)
      returns (pushed: nat)
      requires |batches| == |lists| == |BatchKinds|
      modifies this
      ensures users == old(users)
      ensures pushed == FirstBad(batches)
      ensures budgets == old(budgets) + Stamped(uid, month, year, lists, pushed)
    {
      pushed := 0;
      while pushed < |BatchKinds| && batches[pushed].Some?
        invariant pushed <= FirstBad(batches)
        invariant budgets == old(budgets) + Stamped(uid, month, year, lists, pushed)
        invariant users == old(users)
      {
        PushBatch(uid, BatchKinds[pushed], lists[pushed], month, year);
        pushed := pushed + 1;
      }
      assert pushed == FirstBad(batches);
    }

    /** One `forEach(data => budgets.push(...))` loop of `POST /api/budget`. */
    method PushBatch(uid: UserId, kind: Kind, items: seq<Value>, month: Value, year: Value)
      modifies this
      ensures users == old(users)
      ensures budgets == old(budgets) + Stamp(uid, kind, items, month, year)
    {
      var i := 0;
      while i < |items|
        invariant 0 <= i <= |items|
        invariant users == old(users)
        invariant budgets == old(budgets) + Stamp(uid, kind, items[..i], month, year)
      {
        assert Stamp(uid, kind, items[..i + 1], month, year)
            == Stamp(uid, kind, items[..i], month, year) + [Entry(uid, kind, items[i], month, year)];
        budgets := budgets + [Entry(uid, kind, items[i], month, year)];
        i := i + 1;
      }
      assert items[..i] == items;
    }

    /** `POST /api/budget/reset`. */
    method ResetMonth(uid: UserId, body: Body) returns (r: Response)
      modifies this
      ensures r == Done && users == old(users)
      ensures budgets == WithoutSlice(old(budgets), uid, Get(body, "month"), Get(body, "year"))
    {
      budgets := WithoutSlice(budgets, uid, Get(body, "month"), Get(body, "year"));
      return Done;
    }

    /**
     * A request to a protected route: `verifyToken` first, then the handler
     * with the verified user id. A request without a usable token or with one
     * the verifier refuses changes nothing; a verified one never changes
     * another user's entries, and the two read routes change nothing.
     */
    method Serve(header: Option<string>, verify: string -> Option<UserId>, req: Request) returns (r: Response)
      requires Valid()
      modifies this
      ensures Valid() && users == old(users)
      ensures Authenticate(header, verify).NoToken? ==> r == AccessDenied && budgets == old(budgets)
      ensures Authenticate(header, verify).BadToken? ==> r == InvalidToken && budgets == old(budgets)
      ensures Authenticate(header, verify).Verified? ==>
        var uid := Authenticate(header, verify).userId;
        Filter(budgets, NotOwnedBy(uid)) == Filter(old(budgets), NotOwnedBy(uid))
      ensures Authenticate(header, verify).Verified? && req.PostIncome? ==>
        r == Created && budgets == old(budgets) + [IncomeEntry(Authenticate(header, verify).userId, req.body)]
      ensures Authenticate(header, verify).Verified? && req.PostExpense? ==>
        r == Created && budgets == old(budgets) + [ExpenseEntry(Authenticate(header, verify).userId, req.body)]
      ensures Authenticate(header, verify).Verified? && req.PostSavings? ==>
        r == Created && budgets == old(budgets) + [SavingsEntry(Authenticate(header, verify).userId, req.body)]
      ensures Authenticate(header, verify).Verified? && req.PostGoals? ==>
        r == Created && budgets == old(budgets) + [GoalEntry(Authenticate(header, verify).userId, req.body)]
      ensures Authenticate(header, verify).Verified? && req.PutGoal? ==>
        var uid := Authenticate(header, verify).userId;
        if AnyThrows(old(budgets), uid) then r == ServerError && budgets == old(budgets)
        else budgets == MergeGoals(old(budgets), uid, req.id, req.patch) &&
             r == if AnyTarget(old(budgets), uid, req.id) then Done else GoalNotFound
      ensures Authenticate(header, verify).Verified? && req.DeleteGoalById? ==>
        var uid := Authenticate(header, verify).userId;
        if AnyThrows(old(budgets), uid) then r == ServerError && budgets == old(budgets)
        else r == Done && budgets == WithoutGoal(old(budgets), uid, req.id)
      ensures Authenticate(header, verify).Verified? && req.PostBudget? ==>
        var uid := Authenticate(header, verify).userId;
        var month, year := Get(req.body, "month"), Get(req.body, "year");
        var bad := FirstBad(Batches(req.body));
        budgets == WithoutSlice(old(budgets), uid, month, year) + Stamped(uid, month, year, BatchLists(req.body), bad) &&
        r == if bad == |BatchKinds| then Created else ServerError
      ensures Authenticate(header, verify).Verified? && req.PostBudgetReset? ==>
        r == Done &&
        budgets == WithoutSlice(old(budgets), Authenticate(header, verify).userId, Get(req.body, "month"), Get(req.body, "year"))
      ensures Authenticate(header, verify).Verified? && req.GetBudget? ==>
        budgets == old(budgets) &&
        r == MonthBody(GetMonth(budgets, Authenticate(header, verify).userId, Get(req.query, "month"), Get(req.query, "year")))
      ensures Authenticate(header, verify).Verified? && req.GetGoals? ==>
        budgets == old(budgets) && r == GoalsBody(ListGoals(budgets, Authenticate(header, verify).userId))
    {
      match Authenticate(header, verify)
      case NoToken =>
        return AccessDenied;
      case BadToken =>
        return InvalidToken;
      case Verified(uid) =>
        ghost var before := budgets;
        match req
        case PostIncome(body) =>
          r := AddIncome(uid, body);
          AppendKeepsOthers(before, IncomeEntry(uid, body), uid);
        case PostExpense(body) =>
          r := AddExpense(uid, body);
          AppendKeepsOthers(before, ExpenseEntry(uid, body), uid);
        case PostSavings(body) =>
          r := AddSavings(uid, body);
          AppendKeepsOthers(before, SavingsEntry(uid, body), uid);
        case PostGoals(body) =>
          r := AddGoal(uid, body);
          AppendKeepsOthers(before, GoalEntry(uid, body), uid);
        case PutGoal(id, patch) =>
          r := UpdateGoal(uid, id, patch);
          MergeKeepsOthers(before, uid, id, patch);
        case DeleteGoalById(id) =>
          r := DeleteGoal(uid, id);
          DeleteKeepsOthers(before, uid, id);
        case PostBudget(body) =>
          r := SaveMonth(uid, body);
          ReplaceKeepsOthers(before, uid, Get(body, "month"), Get(body, "year"),
                             BatchLists(body), FirstBad(Batches(body)));
        case GetBudget(query) =>
          r := MonthBody(GetMonth(budgets, uid, Get(query, "month"), Get(query, "year")));
        case PostBudgetReset(body) =>
          r := ResetMonth(uid, body);
          ResetKeepsOthers(before, uid, Get(body, "month"), Get(body, "year"));
        case GetGoals =>
          r := GoalsBody(ListGoals(budgets, uid));
    }
  }
}
