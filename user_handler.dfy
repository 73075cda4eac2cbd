/** The profile update of the user handler: from the fields a user chose to change, a single
    `UPDATE users SET … WHERE id = $n` statement with numbered placeholders and the matching
    argument list. The password is stored only as its hash. */
module UserHandler {
  import opened Wrappers
  import opened Text

  /** A statement argument. */
  datatype Arg = Text(text: string) | Timestamp(time: int) | UserId(id: string)

  /** The statement and its arguments: `args[i]` fills placeholder `$(i+1)`. */
  datatype Update = Update(clauses: seq<string>, args: seq<Arg>, whereIndex: nat, query: string)

  /** The column set by each clause, in clause order: only the fields given (non-empty), in the
      order name, email, password, and always the modification time last. */
  function Columns(name: string, email: string, password: string): seq<string>
  {
    (if name != "" then ["name"] else [])
    + (if email != "" then ["email"] else [])
    + (if password != "" then ["password_hash"] else [])
    + ["updated_at"]
  }

  /** The argument of each clause, in clause order; the password is replaced by its hash. */
  function Values(name: string, email: string, password: string, hash: string -> Option<string>,
                  now: int): seq<Arg>
    requires password == "" || hash(password).Some?
  {
    (if name != "" then [Text(name)] else [])
    + (if email != "" then [Text(email)] else [])
    + (if password != "" then [Text(hash(password).value)] else [])
    + [Timestamp(now)]
  }

  /** `col = $i`. */
  function Clause(column: string, i: nat): string
  {
    column + " = $" + NatToString(i)
  }

  /** The clauses setting `columns`, numbered `$1`, `$2`, … in order. */
  function Numbered(columns: seq<string>): (clauses: seq<string>)
    ensures |clauses| == |columns|
    ensures forall i :: 0 <= i < |columns| ==> clauses[i] == Clause(columns[i], i + 1)
  {
    seq(|columns|, i requires 0 <= i < |columns| => Clause(columns[i], i + 1))
  }

  /** The statement text for the given clauses and the placeholder of the user id. */
  function Statement(clauses: seq<string>, whereIndex: nat): string
  {
    "UPDATE users SET " + Join(clauses, ", ") + " WHERE id = $" + NatToString(whereIndex)
  }

  /** The builder in `UpdateProfile`: a failing password hash aborts with "Failed to hash
      password"; otherwise the clauses set the given columns with placeholders numbered `$1`,
      `$2`, … in clause order, the arguments follow the same order with the user id appended
      last, and the WHERE placeholder is the user id's position. `hash` stands for bcrypt. */
  method BuildProfileUpdate(name: string, email: string, password: string,
                            hash: string -> Option<string>, now: int, userId: string)
    returns (r: Result<Update>)
    ensures r.Err? <==> password != "" && hash(password).None?
    ensures r.Err? ==> r.error == "Failed to hash password"
    ensures r.Ok? ==>
      var u := r.value;
      var cols := Columns(name, email, password);
      && u.clauses == Numbered(cols)
      && u.args == Values(name, email, password, hash, now) + [UserId(userId)]
      && u.whereIndex == |u.clauses| + 1 == |u.args|
      && u.query == Statement(u.clauses, u.whereIndex)
  {
    var updates: seq<string> := [];
    var args: seq<Arg> := [];
    var argIndex := 1;
    ghost var columns: seq<string> := [];
    // the three optional parts of `Columns` and `Values`, named so each step extends the last
    ghost var nameCol, nameArg := if name != "" then ["name"] else [], if name != "" then [Text(name)] else [];
    ghost var emailCol, emailArg := if email != "" then ["email"] else [], if email != "" then [Text(email)] else [];
    if name != "" {
      updates, args, argIndex, columns := AddClause(updates, args, argIndex, columns, "name", Text(name));
    }
    assert columns == nameCol && args == nameArg;
    if email != "" {
      updates, args, argIndex, columns := AddClause(updates, args, argIndex, columns, "email", Text(email));
    }
    assert columns == nameCol + emailCol && args == nameArg + emailArg;
    if password != "" {
      var hashed := hash(password);
      if hashed.None? {
        return Err("Failed to hash password");
      }
      updates, args, argIndex, columns :=
        AddClause(updates, args, argIndex, columns, "password_hash", Text(hashed.value));
    }
    ghost var passwordCol := if password != "" then ["password_hash"] else [];
    ghost var passwordArg := if password != "" then [Text(hash(password).value)] else [];
    assert columns == nameCol + emailCol + passwordCol && args == nameArg + emailArg + passwordArg;
    updates, args, argIndex, columns := AddClause(updates, args, argIndex, columns, "updated_at", Timestamp(now));
    args := args + [UserId(userId)];
    return Ok(Update(updates, args, argIndex, Statement(updates, argIndex)));
  }

  /** One `updates = append(updates, fmt.Sprintf("col = $%d", argIndex))` step with its
      argument: the clause takes the next placeholder and the counter moves on. */
  method AddClause(updates: seq<string>, args: seq<Arg>, argIndex: nat, ghost columns: seq<string>,
                   column: string, arg: Arg)
    returns (updates': seq<string>, args': seq<Arg>, argIndex': nat, ghost columns': seq<string>)
    requires updates == Numbered(columns) && argIndex == |columns| + 1
    ensures columns' == columns + [column] && updates' == Numbered(columns')
    ensures args' == args + [arg] && argIndex' == argIndex + 1 == |columns'| + 1
  {
    NumberedAppend(columns, column);
    updates' := updates + [Clause(column, argIndex)];
    args' := args + [arg];
    argIndex' := argIndex + 1;
    columns' := columns + [column];
  }

  /** Numbering one more column adds its clause with the next placeholder. */
  lemma NumberedAppend(columns: seq<string>, column: string)
    ensures Numbered(columns + [column]) == Numbered(columns) + [Clause(column, |columns| + 1)]
  {
  }

  /** Position of each column in the fixed order. */
  function Rank(column: string): nat
  {
    if column == "name" then 0
    else if column == "email" then 1
    else if column == "password_hash" then 2
    else 3
  }

  /** The clauses follow the fixed column order with no column twice, the modification time
      always comes last, and a field gets a clause exactly when it was given. */
  lemma ColumnsInFixedOrder(name: string, email: string, password: string)
    ensures var cols := Columns(name, email, password);
      && 1 <= |cols| <= 4
      && cols[|cols| - 1] == "updated_at"
      && (forall i, j :: 0 <= i < j < |cols| ==> Rank(cols[i]) < Rank(cols[j]))
      && ("name" in cols <==> name != "")
      && ("email" in cols <==> email != "")
      && ("password_hash" in cols <==> password != "")
  {
    var cols := Columns(name, email, password);
    assert "updated_at" != "name" && "updated_at" != "email" && "updated_at" != "password_hash";
    assert "name" != "email" && "name" != "password_hash" && "email" != "password_hash";
  }

  /** Each column's placeholder receives that column's value: a given name or email is passed
      as is, the password only as its hash, and the modification time as `now`. */
  lemma ArgumentsMatchColumns(name: string, email: string, password: string,
                              hash: string -> Option<string>, now: int)
    requires password == "" || hash(password).Some?
    ensures var cols := Columns(name, email, password);
      var vals := Values(name, email, password, hash, now);
      && |vals| == |cols|
      && (forall i :: 0 <= i < |cols| && cols[i] == "name" ==> vals[i] == Text(name))
      && (forall i :: 0 <= i < |cols| && cols[i] == "email" ==> vals[i] == Text(email))
      && (forall i :: 0 <= i < |cols| && cols[i] == "password_hash" ==>
            vals[i] == Text(hash(password).value))
      && (forall i :: 0 <= i < |cols| && cols[i] == "updated_at" ==> vals[i] == Timestamp(now))
  {
    var cols := Columns(name, email, password);
    var vals := Values(name, email, password, hash, now);
    ColumnsInFixedOrder(name, email, password);
    assert "updated_at" != "name" && "updated_at" != "email" && "updated_at" != "password_hash";
    assert "name" != "email" && "name" != "password_hash" && "email" != "password_hash";
  }

  /** Nothing but the modification time is set when no field is given. */
  lemma EmptyRequestTouchesOnlyTimestamp(hash: string -> Option<string>, now: int, userId: string)
    ensures Columns("", "", "") == ["updated_at"]
    ensures Values("", "", "", hash, now) + [UserId(userId)] == [Timestamp(now), UserId(userId)]
    ensures Numbered(Columns("", "", "")) == [Clause("updated_at", 1)]
  {
  }
}
