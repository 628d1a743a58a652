/** Planning of a `CALL ks.proc(...)` statement in vtgate: pick the target
    keyspace and destination, strip the keyspace qualifier from the
    statement, and send the rendered statement unchanged to that target. */
module CallProcPlan {
  import opened Wrappers

  /** The vtrpc error codes; only FAILED_PRECONDITION is raised here. */
  datatype Code = FailedPrecondition | OtherCode(number: nat)

  datatype VtError = VtError(code: Code, message: string)

  const ErrNotAllowWhenSharded := "CALL is only allowed for targeted queries or on unsharded keyspaces"

  /** A SQL identifier; the empty identifier stands for "no qualifier". */
  datatype TableIdent = TableIdent(v: string) {
    predicate IsEmpty() { v == "" }
  }

  datatype TableName = TableName(name: TableIdent, qualifier: TableIdent)

  /** What the statement renderer sees: the procedure name and its argument
      expressions (kept opaque). */
  datatype CallProcValue = CallProcValue(name: TableName, params: seq<string>)

  datatype Keyspace = Keyspace(name: string, sharded: bool)

  /** A shard destination. Resolved destinations are opaque to the planner. */
  datatype Destination = AnyShard | Resolved(id: nat)

  /** The answer of the vschema's TargetDestination: either a destination
      (possibly none) and a keyspace, or an error. */
  datatype Target = Target(dest: Option<Destination>, keyspace: Keyspace) | TargetError(error: VtError)

  /** The `Send` primitive: a query shipped verbatim to one destination. */
  datatype Send = Send(keyspace: Keyspace, dest: Destination, query: string)

  /** The keyspace name handed to TargetDestination: the qualifier as the
      identifier formatter renders it, or "" when there is no qualifier. */
  function KeyspaceArg(qualifier: TableIdent, identString: TableIdent -> string): string
  {
    if qualifier.IsEmpty() then "" else identString(qualifier)
  }

  /** The routing decision for a CALL whose qualifier is `qualifier`. */
  function Route(qualifier: TableIdent, targetDestination: string -> Target, identString: TableIdent -> string): (r: Result<(Keyspace, Destination), VtError>)
    ensures var t := targetDestination(KeyspaceArg(qualifier, identString));
      && (t.TargetError? ==> r == Err(t.error))
      && (t.Target? && t.dest.None? && t.keyspace.sharded ==>
            r == Err(VtError(FailedPrecondition, ErrNotAllowWhenSharded)))
      && (t.Target? && t.dest.None? && !t.keyspace.sharded ==> r == Ok((t.keyspace, AnyShard)))
      && (t.Target? && t.dest.Some? ==> r == Ok((t.keyspace, t.dest.value)))
  {
    var t := targetDestination(KeyspaceArg(qualifier, identString));
    match t
    case TargetError(e) => Err(e)
    case Target(dest, keyspace) =>
      if dest.None? then
        if keyspace.sharded then Err(VtError(FailedPrecondition, ErrNotAllowWhenSharded))
        else Ok((keyspace, AnyShard))
      else Ok((keyspace, dest.value))
  }

  /** A CALL is planned exactly when TargetDestination succeeds and either
      resolves a destination or names an unsharded keyspace; a successful plan
      always targets the keyspace TargetDestination returned. */
  lemma RouteAllowedIff(qualifier: TableIdent, targetDestination: string -> Target, identString: TableIdent -> string)
    ensures var t := targetDestination(KeyspaceArg(qualifier, identString));
      && (Route(qualifier, targetDestination, identString).Ok? <==>
            t.Target? && (t.dest.Some? || !t.keyspace.sharded))
      && (Route(qualifier, targetDestination, identString).Ok? ==>
            Route(qualifier, targetDestination, identString).value.0 == t.keyspace)
  {
  }

  /** The parsed CALL statement; the planner rewrites its qualifier in place. */
  class CallProc {
    var name: TableName
    var params: seq<string>

    constructor (name: TableName, params: seq<string>)
      ensures this.name == name && this.params == params
    {
      this.name := name;
      this.params := params;
    }

    function Value(): CallProcValue
      reads this
    {
      CallProcValue(name, params)
    }
  }

  /** Plans `stmt`. TargetDestination, the identifier formatter and the
      statement renderer are foreign and passed in as functions. */
  method BuildCallProcPlan(stmt: CallProc, targetDestination: string -> Target,
                           identString: TableIdent -> string, render: CallProcValue -> string)
    returns (r: Result<Send, VtError>)
    modifies stmt
    ensures Route(old(stmt.name.qualifier), targetDestination, identString).Err? ==>
      && r == Err(Route(old(stmt.name.qualifier), targetDestination, identString).error)
      && stmt.name == old(stmt.name)
    ensures Route(old(stmt.name.qualifier), targetDestination, identString).Ok? ==>
      && stmt.name == old(stmt.name).(qualifier := TableIdent(""))
      && r == Ok(Send(Route(old(stmt.name.qualifier), targetDestination, identString).value.0,
                      Route(old(stmt.name.qualifier), targetDestination, identString).value.1,
                      render(CallProcValue(stmt.name, old(stmt.params)))))
    ensures stmt.params == old(stmt.params)
  {
    var ks := "";
    if !stmt.name.qualifier.IsEmpty() {
      ks := identString(stmt.name.qualifier);
    }
    var t := targetDestination(ks);
    if t.TargetError? {
      return Err(t.error);
    }
    var dest := t.dest;
    if dest.None? {
      if t.keyspace.sharded {
        return Err(VtError(FailedPrecondition, ErrNotAllowWhenSharded));
      }
      dest := Some(AnyShard);
    }
    stmt.name := stmt.name.(qualifier := TableIdent(""));
    return Ok(Send(t.keyspace, dest.value, render(stmt.Value())));
  }
}
