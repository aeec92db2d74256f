/**
 * The SMTP side of an attempt: which transport a configured port selects,
 * when the plaintext connection is upgraded with STARTTLS, and the command
 * sequence EHLO, [STARTTLS, EHLO], LOGIN. The server is a script that fixes
 * the outcome of each step; exceptions are named by the class the
 * authenticator would see.
 */
module Smtp {
  import opened Wrappers

  /** The plain SMTP port: configuring it selects the library's default port. */
  const SMTP_PORT := 25
  /** The implicit-TLS port. */
  const SMTPS_PORT := 465
  /** Seconds allowed to every connection. */
  const TIMEOUT := 5

  /** The exception classes that can reach the authenticator's handler. */
  datatype Exc =
    | KeyError                 // a missing `login` or `password` entry in the identity
    | IndexError               // the first row of an empty query result
    | ValueError               // unpacking a split login that does not have exactly two names
    | NoResultFound            // the ORM's empty-result exception
    | SmtpError                // any other SMTP exception (refused login, bad reply, ...)
    | SmtpServerDisconnected   // the server dropped the connection
    | SocketError              // connect failure or timeout
    | SslError                 // TLS negotiation failure
    | OtherError               // anything outside the handler's tuple

  /** Membership in the handler's exception tuple; SMTPServerDisconnected is an SMTP exception. */
  predicate Caught(e: Exc)
    ensures Caught(e) <==> e !in {ValueError, OtherError}
  {
    match e
    case KeyError | IndexError | NoResultFound | SmtpError | SmtpServerDisconnected | SocketError | SslError => true
    case ValueError | OtherError => false
  }

  datatype Step = Ok | Fail(error: Exc)

  /** The scripted outcome of each step the authenticator can take against the server. */
  datatype Server = Server(
    connect: Step,
    ehlo: Step,
    advertisesStartTls: bool,
    startTls: Step,
    ehloAfterTls: Step,
    login: Step,
    quit: Step)

  /** Implicit TLS on the library's default port, or plaintext on the given port (None: the default). */
  datatype Transport = ImplicitTls | Plaintext(port: Option<int>)

  datatype Command =
    | Open(address: string, transport: Transport, timeout: int)
    | Ehlo
    | StartTls
    | Login(user: string, password: string)
    | Quit

  /** The connection a configured port asks for. */
  function TransportFor(port: Option<int>): (t: Transport)
    ensures t.ImplicitTls? <==> port == Some(SMTPS_PORT)
    ensures t == Plaintext(None) <==> port == None || port == Some(SMTP_PORT)
    ensures t.Plaintext? && t.port.Some? <==> port.Some? && port.value != SMTP_PORT && port.value != SMTPS_PORT
    ensures t.Plaintext? && t.port.Some? ==> t.port == port
  {
    if port == Some(SMTPS_PORT) then ImplicitTls
    else if port == Some(SMTP_PORT) || port == None then Plaintext(None)
    else Plaintext(port)
  }

  /** STARTTLS is issued when the server advertises it and the port is not the implicit-TLS one. */
  predicate StartTlsNeeded(port: Option<int>, advertised: bool)
    ensures StartTlsNeeded(port, advertised) ==> advertised && TransportFor(port).Plaintext?
  {
    advertised && port != Some(SMTPS_PORT)
  }

  /** The upgrade is attempted exactly on an advertising server reached over plaintext. */
  lemma StartTlsOnlyOverPlaintext(port: Option<int>, advertised: bool)
    ensures StartTlsNeeded(port, advertised) <==> advertised && TransportFor(port).Plaintext?
  {
  }

  /** The result of the handshake after connecting, and the commands it sent. */
  datatype Exchange = Exchange(result: Step, commands: seq<Command>)

  function LoginStep(server: Server, sent: seq<Command>, login: string, password: string): Exchange
  {
    Exchange(server.login, sent + [Login(login, password)])
  }

  /**
   * EHLO; then STARTTLS and a second EHLO when needed; then LOGIN. The first
   * step that fails ends the handshake with its exception.
   */
  function Handshake(server: Server, port: Option<int>, login: string, password: string): (x: Exchange)
    ensures |x.commands| > 0 && x.commands[0] == Ehlo && Quit !in x.commands
    ensures StartTls in x.commands <==> server.ehlo.Ok? && StartTlsNeeded(port, server.advertisesStartTls)
    ensures x.result.Ok? <==>
            server.ehlo.Ok? && server.login.Ok?
            && (StartTlsNeeded(port, server.advertisesStartTls) ==> server.startTls.Ok? && server.ehloAfterTls.Ok?)
    ensures x.result.Ok? ==> x.commands[|x.commands| - 1] == Login(login, password)
    ensures forall c :: c in x.commands && c.Login? ==> c == Login(login, password)
    // the exact commands of each branch
    ensures server.ehlo.Fail? ==> x.commands == [Ehlo]
    ensures server.ehlo.Ok? && !StartTlsNeeded(port, server.advertisesStartTls) ==>
            x.commands == [Ehlo, Login(login, password)]
    ensures server.ehlo.Ok? && StartTlsNeeded(port, server.advertisesStartTls) && server.startTls.Fail? ==>
            x.commands == [Ehlo, StartTls]
    ensures server.ehlo.Ok? && StartTlsNeeded(port, server.advertisesStartTls) && server.startTls.Ok? ==>
            x.commands == [Ehlo, StartTls, Ehlo] + (if server.ehloAfterTls.Ok? then [Login(login, password)] else [])
    // credentials are sent only after the greeting and, when needed, a completed upgrade
    ensures Login(login, password) in x.commands <==>
            server.ehlo.Ok? && (StartTlsNeeded(port, server.advertisesStartTls) ==>
                                server.startTls.Ok? && server.ehloAfterTls.Ok?)
    // a successful upgrade is followed by the second EHLO
    ensures server.ehlo.Ok? && StartTlsNeeded(port, server.advertisesStartTls) && server.startTls.Ok? ==>
            |x.commands| >= 3 && x.commands[..3] == [Ehlo, StartTls, Ehlo]
    // the outcome is that of the first step that fails, or of LOGIN
    ensures server.ehlo.Fail? ==> x.result == server.ehlo
    ensures server.ehlo.Ok? && StartTlsNeeded(port, server.advertisesStartTls) && server.startTls.Fail? ==>
            x.result == server.startTls
    ensures (server.ehlo.Ok? && StartTlsNeeded(port, server.advertisesStartTls) && server.startTls.Ok?
             && server.ehloAfterTls.Fail?) ==> x.result == server.ehloAfterTls
    ensures (server.ehlo.Ok? && (StartTlsNeeded(port, server.advertisesStartTls) ==>
                                 server.startTls.Ok? && server.ehloAfterTls.Ok?)) ==> x.result == server.login
  {
    match server.ehlo
    case Fail(_) => Exchange(server.ehlo, [Ehlo])
    case Ok =>
      if StartTlsNeeded(port, server.advertisesStartTls) then
        match server.startTls
        case Fail(_) => Exchange(server.startTls, [Ehlo, StartTls])
        case Ok =>
          match server.ehloAfterTls
          case Fail(_) => Exchange(server.ehloAfterTls, [Ehlo, StartTls, Ehlo])
          case Ok => LoginStep(server, [Ehlo, StartTls, Ehlo], login, password)
      else LoginStep(server, [Ehlo], login, password)
  }

  /** A live connection driven through the script; `log` holds the commands sent on it. */
  class SmtpConnection {
    const server: Server
    var log: seq<Command>
    var upgraded: bool

    constructor (server: Server)
      ensures this.server == server && log == [] && !upgraded
    {
      this.server := server;
      log := [];
      upgraded := false;
    }

    /** EHLO; after a successful STARTTLS it is the greeting on the upgraded channel. */
    method Ehlo() returns (step: Step)
      modifies this`log
      ensures step == if upgraded then server.ehloAfterTls else server.ehlo
      ensures log == old(log) + [Command.Ehlo]
    {
      step := if upgraded then server.ehloAfterTls else server.ehlo;
      log := log + [Command.Ehlo];
    }

    function HasStartTls(): bool
    {
      server.advertisesStartTls
    }

    method StartTls() returns (step: Step)
      modifies this`log, this`upgraded
      ensures step == server.startTls && upgraded == step.Ok?
      ensures log == old(log) + [Command.StartTls]
    {
      step := server.startTls;
      upgraded := step.Ok?;
      log := log + [Command.StartTls];
    }

    method Login(user: string, password: string) returns (step: Step)
      modifies this`log
      ensures step == server.login
      ensures log == old(log) + [Command.Login(user, password)]
    {
      step := server.login;
      log := log + [Command.Login(user, password)];
    }

    method Quit() returns (step: Step)
      modifies this`log
      ensures step == server.quit
      ensures log == old(log) + [Command.Quit]
    {
      step := server.quit;
      log := log + [Command.Quit];
    }
  }

  /** Creating the connection object: it exists only when connecting succeeds. */
  method Connect(server: Server) returns (conn: SmtpConnection?, error: Exc)
    ensures server.connect.Ok? <==> conn != null
    ensures conn != null ==> fresh(conn) && conn.server == server && conn.log == [] && !conn.upgraded
    ensures server.connect.Fail? ==> error == server.connect.error
  {
    match server.connect
    case Ok =>
      conn := new SmtpConnection(server);
      error := OtherError;
    case Fail(e) =>
      conn := null;
      error := e;
  }
}
