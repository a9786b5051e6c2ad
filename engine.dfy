/** `AlloyDBEngine` as objects: the class-level connector that `_create`
    installs on first use, and engine instances whose execution primitives
    append the statements they send to a log. */
module Engine {
  import opened Common
  import opened Text
  import opened Auth
  import opened Ddl

  /** The connector is opaque here; it records the user agent it was built with. */
  datatype Connector = Connector(userAgent: string)

  /** `USER_AGENT`; the package version comes from a module outside this model. */
  function UserAgent(version: string): string
  {
    "langchain-google-alloydb-pg-python/" + version
  }

  /** The coroutines a synchronous caller hands to `run_as_sync`. */
  datatype Operation =
    | Execute(query: string)
    | ExecuteOutsideTx(query: string)
    | InitVectorstoreTable(layout: VectorStoreLayout, overwriteExisting: bool)
    | InitChatHistoryTable(tableName: string)

  /** The statements an operation sends, in order. */
  function OperationStatements(op: Operation): seq<string>
  {
    match op
    case Execute(q) => [q]
    case ExecuteOutsideTx(q) => ["COMMIT", q]
    case InitVectorstoreTable(l, o) => VectorStoreInitStatements(l, o)
    case InitChatHistoryTable(t) => [ChatHistoryTableDdl(t)]
  }

  /** The class-level state of `AlloyDBEngine` and its factory methods. */
  class EngineClass {
    var connector: Option<Connector>

    constructor ()
      ensures connector == None
    {
      connector := None;
    }

    /** `_create`: the credentials check, then the shared connector is made if
        missing, then the ip type and the authentication mode are resolved.
        `tokenEmail` is the `email` field of the identity service's reply,
        `hasLoop` whether the caller runs a background event loop. */
    method Create(
      project: string, region: string, cluster: string, instance: string, database: string,
      ipType: IpTypeArg, user: Option<string>, password: Option<string>,
      tokenEmail: Option<string>, version: string, hasLoop: bool)
      returns (r: Result<AlloyDBEngine>)
      modifies this
      ensures connector ==
        if !CredentialsConsistent(user, password) then old(connector)
        else if old(connector).None? then Some(Connector(UserAgent(version)))
        else old(connector)
      ensures var resolved := ResolveConnection(project, region, cluster, instance, database,
                                                ipType, user, password, tokenEmail);
        (r.Err? <==> resolved.Err?)
        && (r.Err? ==> r.error == resolved.error)
        && (r.Ok? ==> fresh(r.value) && r.value.params == resolved.value
                      && r.value.hasLoop == hasLoop && r.value.log == [])
    {
      if Truthy(user) != Truthy(password) {
        return Err(CredentialsMismatch);
      }
      if connector.None? {
        connector := Some(Connector(UserAgent(version)));
      }
      var ip: IpType;
      match ParseIpType(ipType) {
        case Err(e) => return Err(e);
        case Ok(t) => ip := t;
      }
      var enableIamAuth: bool;
      var dbUser: string;
      if Truthy(user) && Truthy(password) {
        enableIamAuth := false;
        dbUser := user.value;
      } else {
        match IamPrincipalEmail(tokenEmail) {
          case Err(e) => return Err(e);
          case Ok(email) => dbUser := email;
        }
        enableIamAuth := true;
      }
      var params := ConnectParams(InstancePath(project, region, cluster, instance), "asyncpg",
                                  dbUser, password, database, enableIamAuth, ip);
      var engine := new AlloyDBEngine(params, hasLoop);
      return Ok(engine);
    }

    /** `from_instance`: `_create` run on a fresh background loop. */
    method FromInstance(
      project: string, cluster: string, region: string, instance: string, database: string,
      user: Option<string>, password: Option<string>, ipType: IpTypeArg,
      tokenEmail: Option<string>, version: string)
      returns (r: Result<AlloyDBEngine>)
      modifies this
      ensures connector ==
        if !CredentialsConsistent(user, password) then old(connector)
        else if old(connector).None? then Some(Connector(UserAgent(version)))
        else old(connector)
      ensures var resolved := ResolveConnection(project, region, cluster, instance, database,
                                                ipType, user, password, tokenEmail);
        (r.Err? <==> resolved.Err?)
        && (r.Err? ==> r.error == resolved.error)
        && (r.Ok? ==> fresh(r.value) && r.value.params == resolved.value
                      && r.value.hasLoop && r.value.log == [])
    {
      r := Create(project, region, cluster, instance, database, ipType, user, password,
                  tokenEmail, version, true);
    }

    /** `afrom_instance`: `_create` in the caller's own event loop; the engine holds no loop. */
    method AFromInstance(
      project: string, region: string, cluster: string, instance: string, database: string,
      user: Option<string>, password: Option<string>, ipType: IpTypeArg,
      tokenEmail: Option<string>, version: string)
      returns (r: Result<AlloyDBEngine>)
      modifies this
      ensures connector ==
        if !CredentialsConsistent(user, password) then old(connector)
        else if old(connector).None? then Some(Connector(UserAgent(version)))
        else old(connector)
      ensures var resolved := ResolveConnection(project, region, cluster, instance, database,
                                                ipType, user, password, tokenEmail);
        (r.Err? <==> resolved.Err?)
        && (r.Err? ==> r.error == resolved.error)
        && (r.Ok? ==> fresh(r.value) && r.value.params == resolved.value
                      && !r.value.hasLoop && r.value.log == [])
    {
      r := Create(project, region, cluster, instance, database, ipType, user, password,
                  tokenEmail, version, false);
    }
  }

  /** An engine instance: the connection it opens and the statements it has sent. */
  class AlloyDBEngine {
    const params: ConnectParams
    const hasLoop: bool
    var log: seq<string>

    constructor (params: ConnectParams, hasLoop: bool)
      ensures this.params == params && this.hasLoop == hasLoop && log == []
    {
      this.params := params;
      this.hasLoop := hasLoop;
      log := [];
    }

    /** `_aexecute`: the statement runs in a transaction that is committed. */
    method AExecute(query: string)
      modifies this
      ensures log == old(log) + [query]
    {
      log := log + [query];
    }

    /** `_aexecute_outside_tx`: a `COMMIT` ends any open transaction first. */
    method AExecuteOutsideTx(query: string)
      modifies this
      ensures log == old(log) + ["COMMIT", query]
    {
      log := log + ["COMMIT"];
      log := log + [query];
    }

    /** `init_vectorstore_table`: the extension, the drop when overwriting,
        then the table built by the loop over the metadata columns. */
    method AInitVectorstoreTable(l: VectorStoreLayout, overwriteExisting: bool)
      modifies this
      ensures log == old(log) + VectorStoreInitStatements(l, overwriteExisting)
    {
      AExecute(CreateExtensionStatement);
      if overwriteExisting {
        AExecute(DropTableStatement(l.tableName));
      }
      var query := BuildVectorStoreTableQuery(l);
      AExecute(query);
    }

    /** `init_chat_history_table`: one idempotent create statement. */
    method AInitChatHistoryTable(tableName: string)
      modifies this
      ensures log == old(log) + [ChatHistoryTableDdl(tableName)]
    {
      AExecute(ChatHistoryTableDdl(tableName));
    }

    /** `run_as_sync`: runs the operation on the engine's loop; an engine built
        without a loop refuses, and nothing is sent. */
    method RunAsSync(op: Operation) returns (r: Result<()>)
      modifies this
      ensures r.Err? <==> !hasLoop
      ensures r.Err? ==> r.error == EngineInitializedAsync
      ensures log == old(log) + (if hasLoop then OperationStatements(op) else [])
    {
      if !hasLoop {
        return Err(EngineInitializedAsync);
      }
      match op {
        case Execute(q) => AExecute(q);
        case ExecuteOutsideTx(q) => AExecuteOutsideTx(q);
        case InitVectorstoreTable(l, o) => AInitVectorstoreTable(l, o);
        case InitChatHistoryTable(t) => AInitChatHistoryTable(t);
      }
      return Ok(());
    }
  }

  /** A synchronous caller with basic credentials: no identity lookup, and
      the selector `PRIVATE` in upper case. */
  method BasicAuthScenario(tokenEmail: Option<string>, version: string)
  {
    var cls := new EngineClass();
    var r := cls.FromInstance("p", "c", "r", "i", "db", Some("alice"), Some("secret"),
                              IpName("PRIVATE"), tokenEmail, version);
    assert r.Ok?;
    assert r.value.params.user == "alice" && !r.value.params.enableIamAuth;
    assert r.value.params.ipType == Private;
  }

  /** Creating a vector-store table over an existing one sends three statements. */
  method OverwriteScenario(engine: AlloyDBEngine)
    requires engine.hasLoop
    modifies engine
  {
    var done := engine.RunAsSync(InitVectorstoreTable(DefaultLayout("t1", 768), true));
    assert done.Ok?;
    assert engine.log[|engine.log| - 2] == DropTableStatement("t1");
  }
}
