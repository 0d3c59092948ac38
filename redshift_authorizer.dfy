/**
 * The Redshift authorizer: a handler that submits one GRANT statement to the
 * Redshift Data API so that the knowledge-base role may use the AWS Data
 * Catalog database, and maps the outcome to a `{statusCode, body}` record.
 * There is no loop and no state: the handler is a function of its
 * environment and of the reply to its single `execute_statement` call.
 */
module RedshiftAuthorizer {
  import opened Runtime

  const DefaultRoleName := "bedrock-knowledgebase-role"

  /** The text around the role name in the submitted SQL. */
  const GrantPrefix := "GRANT USAGE ON DATABASE \"awsdatacatalog\" TO \"IAMR:"
  const GrantSuffix := "\""

  const AcceptedPrefix := "Grant usage query submitted to Redshift Serverless. Statement ID: "
  const ClientErrorPrefix := "AWS client error: "
  const OtherErrorPrefix := "Error executing grant permission: "

  /**
   * The three environment variables the handler reads; `None` when unset
   * (an empty value is set, and is kept as it is).
   */
  datatype Environment = Environment(
    workgroup: Option<string>,  // REDSHIFT_SERVERLESS_WORKGROUP
    database: Option<string>,   // REDSHIFT_DATABASE
    roleName: Option<string>)   // BEDROCK_KB_ROLE_NAME

  /** The arguments of one `execute_statement` call. */
  datatype Statement = Statement(workgroup: Option<string>, database: Option<string>, sql: string)

  /** The dict the handler returns. */
  datatype Result = Result(statusCode: int, body: string)

  /** What one invocation does: the statements it submits and the dict it returns. */
  datatype Invocation = Invocation(calls: seq<Statement>, result: Result)

  /** `os.environ.get('BEDROCK_KB_ROLE_NAME', 'bedrock-knowledgebase-role')` */
  function RoleName(env: Environment): string {
    if env.roleName.Some? then env.roleName.value else DefaultRoleName
  }

  /** The GRANT statement for `role`; the role is inserted verbatim, without quoting. */
  function GrantSql(role: string): (sql: string)
    ensures GrantPrefix <= sql && |sql| == |GrantPrefix| + |role| + |GrantSuffix|
  {
    GrantPrefix + role + GrantSuffix
  }

  /** Reads the role back out of a GRANT statement of the handler's shape. */
  function ParseGrantRole(sql: string): (role: Option<string>)
    ensures role.Some? ==> |role.value| + |GrantPrefix| + |GrantSuffix| == |sql|
  {
    if |sql| >= |GrantPrefix| + |GrantSuffix| && GrantPrefix <= sql
       && sql[|sql| - |GrantSuffix|..] == GrantSuffix
    then Some(sql[|GrantPrefix|..|sql| - |GrantSuffix|])
    else None
  }

  /** The role templated into the SQL is exactly the one parsed back out, and only a GRANT parses. */
  lemma GrantSqlRoundTrip(role: string, sql: string)
    ensures ParseGrantRole(GrantSql(role)) == Some(role)
    ensures ParseGrantRole(sql) == Some(role) <==> sql == GrantSql(role)
  {
    var g := GrantSql(role);
    assert g[|GrantPrefix|..|g| - |GrantSuffix|] == role;
    assert g[|g| - |GrantSuffix|..] == GrantSuffix;
    if ParseGrantRole(sql) == Some(role) {
      assert sql == sql[..|GrantPrefix|] + sql[|GrantPrefix|..|sql| - |GrantSuffix|] + sql[|sql| - |GrantSuffix|..];
    }
  }

  /** The `try`/`except` mapping of the call's outcome to the returned dict. */
  function Outcome(reply: Reply): (r: Result)
    ensures r.statusCode == 200 <==> reply.Value?
    ensures r.statusCode == 200 || r.statusCode == 500
    ensures reply.Value? ==> AcceptedPrefix <= r.body
    ensures reply.Raise? && reply.error.kind == ClientError ==> ClientErrorPrefix <= r.body
    ensures reply.Raise? && reply.error.kind == OtherError ==> OtherErrorPrefix <= r.body
  {
    match reply
    case Value(statementId) => Result(200, AcceptedPrefix + statementId)
    case Raise(Exception(ClientError, message)) => Result(500, ClientErrorPrefix + message)
    case Raise(Exception(OtherError, message)) => Result(500, OtherErrorPrefix + message)
  }

  /**
   * Reads the call's outcome back out of a returned dict: the status code
   * tells acceptance from failure, and the body's prefix tells a ClientError
   * from any other exception.
   */
  function DecodeResult(r: Result): (reply: Reply)
    ensures reply.Value? <==> r.statusCode == 200
  {
    if r.statusCode == 200 then
      Value(if AcceptedPrefix <= r.body then r.body[|AcceptedPrefix|..] else r.body)
    else if ClientErrorPrefix <= r.body then
      Raise(Exception(ClientError, r.body[|ClientErrorPrefix|..]))
    else
      Raise(Exception(OtherError, if OtherErrorPrefix <= r.body then r.body[|OtherErrorPrefix|..] else r.body))
  }

  /**
   * No two outcomes give the same dict: the statement id, or the exception's
   * kind and `str(e)`, is recovered from the result.
   */
  lemma OutcomeRoundTrip(reply: Reply)
    ensures DecodeResult(Outcome(reply)) == reply
  {
    if reply.Raise? && reply.error.kind == OtherError {
      assert OtherErrorPrefix[0] != ClientErrorPrefix[0];
      assert !(ClientErrorPrefix <= Outcome(reply).body);
    }
  }

  /**
   * One invocation. The event is not consulted: there is no RequestType
   * branch. Every path returns a dict; nothing is raised to the caller.
   */
  function Handler(requestType: string, env: Environment, reply: Reply): (inv: Invocation)
    ensures |inv.calls| == 1
    ensures inv.calls[0].workgroup == env.workgroup && inv.calls[0].database == env.database
    ensures ParseGrantRole(inv.calls[0].sql) == Some(RoleName(env))
    ensures DecodeResult(inv.result) == reply
  {
    GrantSqlRoundTrip(RoleName(env), "");
    OutcomeRoundTrip(reply);
    Invocation([Statement(env.workgroup, env.database, GrantSql(RoleName(env)))], Outcome(reply))
  }

  /** Without BEDROCK_KB_ROLE_NAME the grant goes to the default role; a set value, even empty, is used as is. */
  lemma RoleNameDefault(requestType: string, env: Environment, reply: Reply)
    ensures var sql := Handler(requestType, env, reply).calls[0].sql;
      && (env.roleName.None? ==> sql == GrantSql(DefaultRoleName))
      && (env.roleName.Some? ==> sql == GrantSql(env.roleName.value))
  {
    var sql := Handler(requestType, env, reply).calls[0].sql;
    GrantSqlRoundTrip(RoleName(env), sql);
  }

  /**
   * The SQL names the fixed database "awsdatacatalog": it depends on the role
   * alone, not on REDSHIFT_DATABASE nor on the workgroup.
   */
  lemma SqlIndependentOfDatabase(requestType: string, env1: Environment, env2: Environment, reply: Reply)
    requires env1.roleName == env2.roleName
    ensures Handler(requestType, env1, reply).calls[0].sql == Handler(requestType, env2, reply).calls[0].sql
  {
    var sql1 := Handler(requestType, env1, reply).calls[0].sql;
    var sql2 := Handler(requestType, env2, reply).calls[0].sql;
    GrantSqlRoundTrip(RoleName(env1), sql1);
    GrantSqlRoundTrip(RoleName(env2), sql2);
  }

  /** Delete is treated like Create and Update: the same statement is submitted and the same dict returned. */
  lemma IgnoresRequestType(requestType1: string, requestType2: string, env: Environment, reply: Reply)
    ensures Handler(requestType1, env, reply) == Handler(requestType2, env, reply)
  {
  }

  /**
   * Acceptance gives 200 with the statement id at the end of the body (no
   * completion is awaited); a ClientError gives 500 "AWS client error: ",
   * any other exception 500 "Error executing grant permission: ", each
   * followed by `str(e)`.
   */
  lemma ResultCases(requestType: string, env: Environment, reply: Reply)
    ensures var r := Handler(requestType, env, reply).result;
      && (reply.Value? ==>
            r.statusCode == 200 && AcceptedPrefix <= r.body && r.body[|AcceptedPrefix|..] == reply.value)
      && (reply.Raise? && reply.error.kind == ClientError ==>
            r.statusCode == 500 && ClientErrorPrefix <= r.body && r.body[|ClientErrorPrefix|..] == reply.error.message)
      && (reply.Raise? && reply.error.kind == OtherError ==>
            r.statusCode == 500 && OtherErrorPrefix <= r.body && r.body[|OtherErrorPrefix|..] == reply.error.message)
  {
    OutcomeRoundTrip(reply);
  }
}
