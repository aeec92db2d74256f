/**
 * What one authentication attempt guarantees, stated over `Authentication`:
 * the early denials and the one exception that escapes, the single row that
 * is read, the identity that is reported, when STARTTLS is used, that a
 * created connection is always closed, and how the as-written endpoint query
 * feeds the attempt.
 */
module AttemptProperties {
  import opened Wrappers
  import opened Strings
  import opened Endpoint
  import opened Login
  import opened Smtp
  import opened SmtpAuth

  /** A lockout verdict denies at once: no parsing, no query, no connection, no rewrite. */
  lemma LockoutShortCircuits(fields: map<string, string>, query: string -> seq<Row>, server: Server, m: Markers)
    ensures Authentication(true, fields, query, server, m) == Attempt(Denied, fields, [])
  {
  }

  /** A missing `login` or `password` entry is a caught KeyError: a silent denial. */
  lemma MissingEntryDenied(fields: map<string, string>, query: string -> seq<Row>, server: Server, m: Markers)
    requires "login" !in fields || "password" !in fields
    ensures Authentication(false, fields, query, server, m) == Attempt(Denied, fields, [])
  {
  }

  /** A login without `@` is denied before any query or connection. */
  lemma LoginWithoutAtDenied(locked: bool, fields: map<string, string>, query: string -> seq<Row>,
                             server: Server, m: Markers)
    requires "login" in fields && "password" in fields
    requires Occurrences(fields["login"], '@') == 0
    ensures Authentication(locked, fields, query, server, m) == Attempt(Denied, fields, [])
  {
  }

  /**
   * A login with two or more `@` is not denied: unpacking the split raises a
   * ValueError that the handler does not catch, so it escapes to the caller.
   */
  lemma SeveralAtEscapes(fields: map<string, string>, query: string -> seq<Row>, server: Server, m: Markers)
    requires "login" in fields && "password" in fields
    requires Occurrences(fields["login"], '@') >= 2
    ensures Authentication(false, fields, query, server, m) == Attempt(Raised(ValueError), fields, [])
  {
  }

  /** An empty query result is a caught IndexError: a denial with no connection. */
  lemma EmptyQueryDenied(fields: map<string, string>, query: string -> seq<Row>, server: Server, m: Markers,
                         username: string, domain: string)
    requires "login" in fields && "password" in fields
    requires ParseLogin(fields["login"]) == Address(username, domain)
    requires query(domain) == []
    ensures Authentication(false, fields, query, server, m) == Attempt(Denied, fields, [])
  {
  }

  /** Two queries agree on the typed domain's first row (or are both empty there). */
  predicate SameFirstRow(fields: map<string, string>, q1: string -> seq<Row>, q2: string -> seq<Row>)
  {
    "login" in fields && ParseLogin(fields["login"]).Address? ==>
      var d := ParseLogin(fields["login"]).domain;
      (q1(d) == [] <==> q2(d) == []) && (q1(d) != [] ==> q1(d)[0] == q2(d)[0])
  }

  /** Only the typed domain is queried and only the first row it returns is used. */
  lemma OnlyFirstRowConsulted(locked: bool, fields: map<string, string>, q1: string -> seq<Row>,
                              q2: string -> seq<Row>, server: Server, m: Markers)
    requires SameFirstRow(fields, q1, q2)
    ensures Authentication(locked, fields, q1, server, m) == Authentication(locked, fields, q2, server, m)
  {
  }

  /**
   * Success is reported only after the whole handshake, LOGIN included,
   * succeeded, and what is reported is the username at the first row's
   * domain, whatever domain (or alias) was typed.
   */
  lemma AcceptedIdentity(locked: bool, fields: map<string, string>, query: string -> seq<Row>,
                         server: Server, m: Markers)
    requires Authentication(locked, fields, query, server, m).outcome.Accepted?
    ensures ReachesSession(locked, fields, query)
    ensures var a := Authentication(locked, fields, query, server, m);
            var p := ParseLogin(fields["login"]);
            var row := FirstRow(fields, query);
            && a.outcome.identity == Format(p.username, row.domainName)
            && server.connect.Ok? && server.ehlo.Ok? && server.login.Ok?
            && Login(Rewrite(fields["login"], p.username, p.domain, row, m).smtpLogin, fields["password"]) in a.trace
  {
    var p := ParseLogin(fields["login"]);
    var row := FirstRow(fields, query);
    var creds := Rewrite(fields["login"], p.username, p.domain, row, m);
    var x := Handshake(server, row.port, creds.smtpLogin, fields["password"]);
    ReportedIdentityIsCanonical(fields["login"], p.username, p.domain, row, m);
    assert x.commands[|x.commands| - 1] in x.commands;
  }

  /**
   * Conversely, when every step of the handshake succeeds and QUIT either
   * succeeds or finds the server gone, the attempt is accepted.
   */
  lemma AcceptedWhenHandshakeSucceeds(fields: map<string, string>, query: string -> seq<Row>,
                                      server: Server, m: Markers)
    requires ReachesSession(false, fields, query)
    requires server.connect.Ok? && server.ehlo.Ok? && server.login.Ok?
    requires StartTlsNeeded(FirstRow(fields, query).port, server.advertisesStartTls) ==>
             server.startTls.Ok? && server.ehloAfterTls.Ok?
    requires server.quit.Ok? || server.quit == Fail(SmtpServerDisconnected)
    ensures var p := ParseLogin(fields["login"]);
            Authentication(false, fields, query, server, m).outcome
            == Accepted(Format(p.username, FirstRow(fields, query).domainName))
  {
    var p := ParseLogin(fields["login"]);
    ReportedIdentityIsCanonical(fields["login"], p.username, p.domain, FirstRow(fields, query), m);
  }

  /**
   * The only credentials ever sent are the rewritten SMTP login and the
   * typed password.
   */
  lemma OnlyRewrittenLoginSent(fields: map<string, string>, query: string -> seq<Row>, server: Server, m: Markers)
    requires ReachesSession(false, fields, query)
    ensures var p := ParseLogin(fields["login"]);
            var creds := Rewrite(fields["login"], p.username, p.domain, FirstRow(fields, query), m);
            forall c :: c in Authentication(false, fields, query, server, m).trace && c.Login? ==>
                          c == Login(creds.smtpLogin, fields["password"])
  {
    var a := Authentication(false, fields, query, server, m);
    var p := ParseLogin(fields["login"]);
    var row := FirstRow(fields, query);
    var creds := Rewrite(fields["login"], p.username, p.domain, row, m);
    var x := Handshake(server, row.port, creds.smtpLogin, fields["password"]);
    var open := Open(row.address, TransportFor(row.port), TIMEOUT);
    if server.connect.Ok? {
      assert a.trace == [open] + x.commands + [Quit];
    } else {
      assert a.trace == [open];
    }
  }

  /**
   * The caller's identity is rewritten to the canonical address as soon as
   * the first row names another domain, before connecting: a denied attempt
   * through an alias leaves the rewritten login behind too.
   */
  lemma IdentityRewrittenInPlace(locked: bool, fields: map<string, string>, query: string -> seq<Row>,
                                 server: Server, m: Markers)
    ensures var a := Authentication(locked, fields, query, server, m);
            if ReachesSession(locked, fields, query)
               && ParseLogin(fields["login"]).domain != FirstRow(fields, query).domainName
            then a.identity == fields["login" := Format(ParseLogin(fields["login"]).username,
                                                        FirstRow(fields, query).domainName)]
            else a.identity == fields
  {
  }

  /**
   * A connection is requested exactly when the attempt reaches the first
   * row; QUIT is sent exactly when the connection object was created, once,
   * and as the last command.
   */
  lemma ConnectionAlwaysClosed(locked: bool, fields: map<string, string>, query: string -> seq<Row>,
                               server: Server, m: Markers)
    ensures var a := Authentication(locked, fields, query, server, m);
            && (a.trace != [] <==> ReachesSession(locked, fields, query))
            && (a.trace != [] ==> a.trace[0] == Open(FirstRow(fields, query).address,
                                                     TransportFor(FirstRow(fields, query).port), TIMEOUT))
            && (Quit in a.trace <==> a.trace != [] && server.connect.Ok?)
            && (Quit in a.trace ==> a.trace[|a.trace| - 1] == Quit && Quit !in a.trace[..|a.trace| - 1])
  {
    var a := Authentication(locked, fields, query, server, m);
    if ReachesSession(locked, fields, query) {
      var p := ParseLogin(fields["login"]);
      var row := FirstRow(fields, query);
      var creds := Rewrite(fields["login"], p.username, p.domain, row, m);
      var x := Handshake(server, row.port, creds.smtpLogin, fields["password"]);
      var open := Open(row.address, TransportFor(row.port), TIMEOUT);
      if server.connect.Ok? {
        assert a.trace == [open] + x.commands + [Quit];
        assert a.trace[..|a.trace| - 1] == [open] + x.commands;
      } else {
        assert a.trace == [open];
      }
    }
  }

  /** A server that has already disconnected when QUIT is sent changes nothing. */
  lemma DisconnectOnQuitSwallowed(locked: bool, fields: map<string, string>, query: string -> seq<Row>,
                                  server: Server, m: Markers)
    ensures Authentication(locked, fields, query, server.(quit := Fail(SmtpServerDisconnected)), m)
            == Authentication(locked, fields, query, server.(quit := Ok), m)
  {
    var s1 := server.(quit := Fail(SmtpServerDisconnected));
    var s2 := server.(quit := Ok);
    if ReachesSession(locked, fields, query) {
      var p := ParseLogin(fields["login"]);
      var row := FirstRow(fields, query);
      var creds := Rewrite(fields["login"], p.username, p.domain, row, m);
      assert Handshake(s1, row.port, creds.smtpLogin, fields["password"])
          == Handshake(s2, row.port, creds.smtpLogin, fields["password"]);
    }
  }

  /**
   * Any other exception from QUIT escapes from the cleanup and replaces the
   * result, even that of an accepted login.
   */
  lemma QuitFailureOverridesResult(fields: map<string, string>, query: string -> seq<Row>,
                                   server: Server, m: Markers, e: Exc)
    requires ReachesSession(false, fields, query) && server.connect.Ok?
    requires server.quit == Fail(e) && e != SmtpServerDisconnected
    ensures Authentication(false, fields, query, server, m).outcome == Raised(e)
  {
  }

  /**
   * Once connected and greeted, STARTTLS is sent exactly when the server
   * advertises it and the port is not 465, never on an implicit-TLS
   * connection, and a successful upgrade is followed by the second EHLO.
   */
  lemma StartTlsDecision(fields: map<string, string>, query: string -> seq<Row>, server: Server, m: Markers)
    requires ReachesSession(false, fields, query) && server.connect.Ok? && server.ehlo.Ok?
    ensures var a := Authentication(false, fields, query, server, m);
            && (StartTls in a.trace <==>
                server.advertisesStartTls && FirstRow(fields, query).port != Some(SMTPS_PORT))
            && (StartTls in a.trace ==> a.trace[0].transport.Plaintext?)
            && (StartTls in a.trace && server.startTls.Ok? ==> a.trace[1..4] == [Ehlo, StartTls, Ehlo])
            && (!(StartTls in a.trace && server.startTls.Ok?) ==> Ehlo !in a.trace[2..])
  {
    var a := Authentication(false, fields, query, server, m);
    var p := ParseLogin(fields["login"]);
    var row := FirstRow(fields, query);
    var creds := Rewrite(fields["login"], p.username, p.domain, row, m);
    var x := Handshake(server, row.port, creds.smtpLogin, fields["password"]);
    var open := Open(row.address, TransportFor(row.port), TIMEOUT);
    assert a.trace == [open] + x.commands + [Quit];
    assert StartTls in a.trace <==> StartTls in x.commands;
    StartTlsOnlyOverPlaintext(row.port, server.advertisesStartTls);
    if StartTls in a.trace && server.startTls.Ok? {
      assert a.trace[1..4] == x.commands[..3];
    } else {
      assert a.trace[2..] == x.commands[1..] + [Quit];
    }
  }

  /**
   * When the upgrade is needed, the credentials are sent only if STARTTLS
   * and the second EHLO both succeeded: a failed upgrade never exposes the
   * password.
   */
  lemma CredentialsOnlyAfterUpgrade(fields: map<string, string>, query: string -> seq<Row>,
                                    server: Server, m: Markers)
    requires ReachesSession(false, fields, query) && server.connect.Ok? && server.ehlo.Ok?
    requires StartTlsNeeded(FirstRow(fields, query).port, server.advertisesStartTls)
    ensures var p := ParseLogin(fields["login"]);
            var creds := Rewrite(fields["login"], p.username, p.domain, FirstRow(fields, query), m);
            Login(creds.smtpLogin, fields["password"]) in Authentication(false, fields, query, server, m).trace
            <==> server.startTls.Ok? && server.ehloAfterTls.Ok?
  {
    var a := Authentication(false, fields, query, server, m);
    var p := ParseLogin(fields["login"]);
    var row := FirstRow(fields, query);
    var creds := Rewrite(fields["login"], p.username, p.domain, row, m);
    var x := Handshake(server, row.port, creds.smtpLogin, fields["password"]);
    var open := Open(row.address, TransportFor(row.port), TIMEOUT);
    assert a.trace == [open] + x.commands + [Quit];
    assert Login(creds.smtpLogin, fields["password"]) in a.trace <==> Login(creds.smtpLogin, fields["password"]) in x.commands;
  }

  /** Every step either succeeds or raises an exception the handler catches; QUIT at worst finds the server gone. */
  predicate WellBehaved(server: Server)
  {
    && (server.connect.Fail? ==> Caught(server.connect.error))
    && (server.ehlo.Fail? ==> Caught(server.ehlo.error))
    && (server.startTls.Fail? ==> Caught(server.startTls.error))
    && (server.ehloAfterTls.Fail? ==> Caught(server.ehloAfterTls.error))
    && (server.login.Fail? ==> Caught(server.login.error))
    && (server.quit.Ok? || server.quit == Fail(SmtpServerDisconnected))
  }

  /**
   * Against a well-behaved server, an attempt whose login has at most one
   * `@` ends in acceptance or denial, never in an escaping exception.
   */
  lemma NoEscapeUnlessSeveralAt(locked: bool, fields: map<string, string>, query: string -> seq<Row>,
                                server: Server, m: Markers)
    requires WellBehaved(server)
    requires "login" in fields ==> Occurrences(fields["login"], '@') < 2
    ensures !Authentication(locked, fields, query, server, m).outcome.Raised?
  {
    if ReachesSession(locked, fields, query) {
      var p := ParseLogin(fields["login"]);
      var row := FirstRow(fields, query);
      var creds := Rewrite(fields["login"], p.username, p.domain, row, m);
      var x := Handshake(server, row.port, creds.smtpLogin, fields["password"]);
      assert x.result.Fail? ==> Caught(x.result.error);
    }
  }

  /**
   * Repeating an attempt with the identity it left behind, against the same
   * configuration and server, is the same attempt again: same outcome, same
   * identity, same commands. This needs the typed domain to be the row's
   * domain already or the template to be ineffective: an effective
   * template's domain marker is filled with the typed domain, which the
   * first attempt rewrote.
   */
  lemma RepeatedAttemptStable(fields: map<string, string>, query: string -> seq<Row>, server: Server, m: Markers)
    requires ReachesSession(false, fields, query)
    requires var row := FirstRow(fields, query);
             && Occurrences(row.domainName, '@') == 0
             && query(row.domainName) != [] && query(row.domainName)[0] == row
             && (ParseLogin(fields["login"]).domain == row.domainName || !EffectiveTemplate(row.template, m))
    ensures var a1 := Authentication(false, fields, query, server, m);
            Authentication(false, a1.identity, query, server, m) == a1
  {
    var a1 := Authentication(false, fields, query, server, m);
    var p := ParseLogin(fields["login"]);
    var row := FirstRow(fields, query);
    if p.domain != row.domainName {
      var canonical := Format(p.username, row.domainName);
      var f2 := a1.identity;
      assert f2 == fields["login" := canonical];
      ParseFormat(p.username, row.domainName);
      assert ParseLogin(f2["login"]) == Address(p.username, row.domainName);
      assert FirstRow(f2, query) == row;
      var c1 := Rewrite(fields["login"], p.username, p.domain, row, m);
      var c2 := Rewrite(f2["login"], p.username, row.domainName, row, m);
      assert c2.smtpLogin == c1.smtpLogin;
      assert f2["password"] == fields["password"];
      assert f2["login" := canonical] == f2;
    }
  }

  // ---------------------------------------------------------- the store

  /** The attempt against the tables, with the endpoint query as written. */
  function StoreQuery(servers: seq<AuthServer>, domains: seq<Domain>, aliases: seq<DomainAlias>): string -> seq<Row>
  {
    d => QueryRows(servers, domains, aliases, d)
  }

  /** The attempt against the tables, with the intended endpoint selection. */
  function IntendedQuery(servers: seq<AuthServer>, domains: seq<Domain>, aliases: seq<DomainAlias>): string -> seq<Row>
  {
    d => EndpointRows(servers, domains, aliases, d)
  }

  /**
   * With the query as written, an empty alias table means nobody is ever
   * accepted and no connection is ever made, whatever the servers and
   * domains configured.
   */
  lemma EmptyAliasTableDeniesEveryone(locked: bool, fields: map<string, string>, servers: seq<AuthServer>,
                                      domains: seq<Domain>, server: Server, m: Markers)
    ensures var a := Authentication(locked, fields, StoreQuery(servers, domains, []), server, m);
            !a.outcome.Accepted? && a.trace == []
  {
    if "login" in fields && ParseLogin(fields["login"]).Address? {
      NoAliasesQueryRows(servers, domains, ParseLogin(fields["login"]).domain);
    }
  }

  /** With at least one alias row the query as written and the intended one lead to the same attempt. */
  lemma StoreQueryMatchesIntended(locked: bool, fields: map<string, string>, servers: seq<AuthServer>,
                                  domains: seq<Domain>, aliases: seq<DomainAlias>, server: Server, m: Markers)
    requires aliases != []
    ensures Authentication(locked, fields, StoreQuery(servers, domains, aliases), server, m)
            == Authentication(locked, fields, IntendedQuery(servers, domains, aliases), server, m)
  {
    if "login" in fields && ParseLogin(fields["login"]).Address? {
      QueryAgreesWhenAliasesExist(servers, domains, aliases, ParseLogin(fields["login"]).domain);
    }
    OnlyFirstRowConsulted(locked, fields, StoreQuery(servers, domains, aliases),
                          IntendedQuery(servers, domains, aliases), server, m);
  }
}
