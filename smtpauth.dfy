/**
 * The SMTP authenticator plugin: one authentication attempt, from the
 * lockout gate to the SMTP handshake and the cleanup of the connection.
 *
 * `Authentication` is the attempt as a function of its collaborators: the
 * lockout verdict, the caller's identity dictionary, the endpoint query (a
 * function from the typed domain to the rows it returns) and the server
 * script. It returns the outcome, the identity dictionary afterwards (the
 * attempt rewrites its `login` entry in place) and the trace of commands sent.
 * `BaruwaSmtpAuthPlugin.Authenticate` is the imperative attempt, proved
 * equal to it.
 */
module SmtpAuth {
  import opened Wrappers
  import opened Strings
  import opened Endpoint
  import opened Login
  import opened Smtp

  /** What the caller observes: the identity, a denial (None), or an exception that escapes. */
  datatype Outcome = Accepted(identity: string) | Denied | Raised(error: Exc)

  /** How the protected block ends: a return (of a value or of None) or an exception. */
  datatype Completion = Returned(value: Option<string>) | Thrown(error: Exc)

  datatype Attempt = Attempt(outcome: Outcome, identity: map<string, string>, trace: seq<Command>)

  /** The protected block's end state, before the handler and the cleanup run. */
  datatype Run = Run(body: Completion, identity: map<string, string>, trace: seq<Command>, connected: bool)

  /**
   * The exception handler, then the cleanup: an exception in the handler's
   * tuple becomes a denial; when a connection exists, QUIT is sent, and an
   * exception from it other than a disconnect replaces the result.
   */
  function Settle(body: Completion, connected: bool, quit: Step): (o: Outcome)
    ensures o.Accepted? ==> body == Returned(Some(o.identity))
    ensures o.Raised? ==> !Caught(o.error) || (connected && quit == Fail(o.error))
    ensures o.Raised? ==> o.error != SmtpServerDisconnected
    // an exception from QUIT other than a disconnect replaces the result
    ensures connected && quit.Fail? && quit.error != SmtpServerDisconnected ==> o == Raised(quit.error)
    // otherwise the handler decides: a returned value is returned, a caught exception is a denial
    ensures !(connected && quit.Fail? && quit.error != SmtpServerDisconnected) ==>
            match body
            case Returned(Some(v)) => o == Accepted(v)
            case Returned(None) => o == Denied
            case Thrown(e) => o == if Caught(e) then Denied else Raised(e)
  {
    var handled :=
      match body
      case Returned(Some(v)) => Accepted(v)
      case Returned(None) => Denied
      case Thrown(e) => if Caught(e) then Denied else Raised(e);
    if connected && quit.Fail? && quit.error != SmtpServerDisconnected then Raised(quit.error) else handled
  }

  /** From the first row on: rewrite the login, connect and run the handshake. */
  function Session(fields: map<string, string>, username: string, domain: string, row: Row,
                   server: Server, m: Markers): (r: Run)
    requires "login" in fields && "password" in fields
    ensures r.trace != [] && r.trace[0] == Open(row.address, TransportFor(row.port), TIMEOUT)
    ensures r.connected <==> server.connect.Ok?
    // past the first row the block never returns None: a denial is an exception
    ensures "login" in r.identity && (r.body.Returned? ==> r.body == Returned(Some(r.identity["login"])))
  {
    var creds := Rewrite(fields["login"], username, domain, row, m);
    var identity := if domain != row.domainName then fields["login" := creds.identity] else fields;
    var open := Open(row.address, TransportFor(row.port), TIMEOUT);
    match server.connect
    case Fail(e) => Run(Thrown(e), identity, [open], false)
    case Ok =>
      var x := Handshake(server, row.port, creds.smtpLogin, fields["password"]);
      var body := if x.result.Ok? then Returned(Some(identity["login"])) else Thrown(x.result.error);
      Run(body, identity, [open] + x.commands, true)
  }

  /** The protected block: lockout gate, identity entries, `@` parsing, first row, session. */
  function Protected(locked: bool, fields: map<string, string>, query: string -> seq<Row>,
                     server: Server, m: Markers): (r: Run)
    // None is returned only before anything is sent
    ensures r.body == Returned(None) ==> r.trace == [] && !r.connected
    ensures r.connected ==> server.connect.Ok? && r.trace != []
    ensures r.body.Returned? && r.body.value.Some? ==> "login" in r.identity && r.body.value.value == r.identity["login"]
  {
    if locked then Run(Returned(None), fields, [], false)
    else if "login" !in fields || "password" !in fields then Run(Thrown(KeyError), fields, [], false)
    else
      match ParseLogin(fields["login"])
      case NoAt => Run(Returned(None), fields, [], false)
      case TooManyAt => Run(Thrown(ValueError), fields, [], false)
      case Address(username, domain) =>
        var rows := query(domain);
        if rows == [] then Run(Thrown(IndexError), fields, [], false)
        else Session(fields, username, domain, rows[0], server, m)
  }

  /** One authentication attempt. */
  function Authentication(locked: bool, fields: map<string, string>, query: string -> seq<Row>,
                          server: Server, m: Markers): (a: Attempt)
    // only the `login` entry of the identity can change
    ensures a.identity.Keys == fields.Keys
    ensures forall k :: k in fields && k != "login" ==> a.identity[k] == fields[k]
    // the identity reported is the one left in the dictionary
    ensures a.outcome.Accepted? ==> "login" in a.identity && a.outcome.identity == a.identity["login"]
  {
    var run := Protected(locked, fields, query, server, m);
    Attempt(Settle(run.body, run.connected, server.quit), run.identity,
            if run.connected then run.trace + [Quit] else run.trace)
  }

  /** The attempt gets as far as the first row: not locked, both entries present, one `@`, a row. */
  predicate ReachesSession(locked: bool, fields: map<string, string>, query: string -> seq<Row>)
  {
    && !locked && "login" in fields && "password" in fields
    && ParseLogin(fields["login"]).Address?
    && query(ParseLogin(fields["login"]).domain) != []
  }

  /** The first row of the typed domain's query result. */
  function FirstRow(fields: map<string, string>, query: string -> seq<Row>): Row
    requires "login" in fields && ParseLogin(fields["login"]).Address?
    requires query(ParseLogin(fields["login"]).domain) != []
  {
    query(ParseLogin(fields["login"]).domain)[0]
  }

  // ------------------------------------------------------------ the plugin

  /** The identity dictionary handed in by the caller; the attempt may rewrite it. */
  class Identity {
    var fields: map<string, string>

    constructor (fields: map<string, string>)
      ensures this.fields == fields
    {
      this.fields := fields;
    }
  }

  class BaruwaSmtpAuthPlugin {
    const name: string
    /** The endpoint query, standing for the database session and the three table models. */
    const query: string -> seq<Row>
    /** The username and domain markers of login templates. */
    const markers: Markers

    constructor (query: string -> seq<Row>, markers: Markers)
      ensures name == "smtp" && this.query == query && this.markers == markers
    {
      name := "smtp";
      this.query := query;
      this.markers := markers;
    }

    /**
     * One attempt. `locked` is the failed-login check's verdict; the trace
     * is the connection request followed by the commands sent on the
     * connection.
     */
    method Authenticate(locked: bool, identity: Identity, server: Server) returns (outcome: Outcome, trace: seq<Command>)
      modifies identity
      ensures Attempt(outcome, identity.fields, trace) == Authentication(locked, old(identity.fields), query, server, markers)
    {
      var body, conn;
      body, trace, conn := Attempted(locked, identity, server);
      match body {
        case Returned(v) => outcome := if v.Some? then Accepted(v.value) else Denied;
        case Thrown(e) => outcome := if Caught(e) then Denied else Raised(e);
      }
      if conn != null {
        var q := conn.Quit();
        if q.Fail? && q.error != SmtpServerDisconnected {
          outcome := Raised(q.error);
        }
        trace := trace + [Command.Quit];
      }
    }

    /** The protected block; `conn` is the connection object, if one was created. */
    method Attempted(locked: bool, identity: Identity, server: Server)
      returns (body: Completion, trace: seq<Command>, conn: SmtpConnection?)
      modifies identity
      ensures Run(body, identity.fields, trace, conn != null) == Protected(locked, old(identity.fields), query, server, markers)
      ensures conn != null ==> fresh(conn) && conn.server == server
    {
      conn := null;
      trace := [];
      if locked {
        body := Returned(None);
      } else if "login" !in identity.fields || "password" !in identity.fields {
        body := Thrown(KeyError);
      } else {
        var parsed := ParseLogin(identity.fields["login"]);
        if parsed.NoAt? {
          body := Returned(None);
        } else if parsed.TooManyAt? {
          body := Thrown(ValueError);
        } else {
          var rows := query(parsed.domain);
          if rows == [] {
            body := Thrown(IndexError);
          } else {
            body, trace, conn := Connected(identity, parsed.username, parsed.domain, rows[0], server);
          }
        }
      }
    }

    /** Login rewriting, connection and handshake for the first row. */
    method Connected(identity: Identity, username: string, domain: string, row: Row, server: Server)
      returns (body: Completion, trace: seq<Command>, conn: SmtpConnection?)
      requires "login" in identity.fields && "password" in identity.fields
      modifies identity
      ensures Run(body, identity.fields, trace, conn != null) == Session(old(identity.fields), username, domain, row, server, markers)
      ensures conn != null ==> fresh(conn) && conn.server == server
    {
      var login := identity.fields["login"];
      var password := identity.fields["password"];
      if row.splitAddress {
        login := username;
      }
      if domain != row.domainName {
        identity.fields := identity.fields["login" := Format(username, row.domainName)];
        if !row.splitAddress {
          login := Format(username, row.domainName);
        }
      }
      if row.template != [] && (Contains(row.template, markers.user) || Contains(row.template, markers.domain)) {
        login := ReplaceAll(row.template, markers.user, username);
        login := ReplaceAll(login, markers.domain, domain);
      }
      trace := [Open(row.address, TransportFor(row.port), TIMEOUT)];
      var error;
      conn, error := Connect(server);
      if conn == null {
        body := Thrown(error);
      } else {
        var step := Converse(conn, row.port, login, password);
        body := if step.Ok? then Returned(Some(identity.fields["login"])) else Thrown(step.error);
        trace := trace + conn.log;
      }
    }

    /** EHLO, the STARTTLS upgrade and second EHLO when needed, then LOGIN. */
    method Converse(conn: SmtpConnection, port: Option<int>, login: string, password: string) returns (step: Step)
      requires conn.log == [] && !conn.upgraded
      modifies conn
      ensures Exchange(step, conn.log) == Handshake(conn.server, port, login, password)
    {
      step := conn.Ehlo();
      if step.Ok? && StartTlsNeeded(port, conn.HasStartTls()) {
        step := conn.StartTls();
        if step.Ok? {
          step := conn.Ehlo();
        }
      }
      if step.Ok? {
        step := conn.Login(login, password);
      }
    }
  }
}
