/**
 * Whole attempts end to end, each with its exact trace: a login typed at
 * the configured domain (over STARTTLS, refused, over implicit TLS), and a
 * login typed at an alias (with a template, and with split addresses).
 */
module Scenarios {
  import opened Wrappers
  import opened Strings
  import opened Endpoint
  import opened Login
  import opened Smtp
  import opened SmtpAuth

  /** A server on which every step succeeds and STARTTLS is advertised. */
  const Cooperative := Server(Ok, Ok, true, Ok, Ok, Ok, Ok)

  /** The identity holds the well-formed login `username@domain`, and `row` is the first row for `domain`. */
  predicate Typed(fields: map<string, string>, query: string -> seq<Row>, username: string, domain: string, row: Row)
  {
    && "login" in fields && "password" in fields
    && fields["login"] == Format(username, domain)
    && Occurrences(username, '@') == 0 && Occurrences(domain, '@') == 0
    && query(domain) != [] && query(domain)[0] == row
  }

  lemma TypedReachesSession(fields: map<string, string>, query: string -> seq<Row>, username: string,
                            domain: string, row: Row)
    requires Typed(fields, query, username, domain, row)
    ensures ReachesSession(false, fields, query)
    ensures ParseLogin(fields["login"]) == Address(username, domain)
    ensures FirstRow(fields, query) == row
  {
    ParseFormat(username, domain);
  }

  /**
   * A login typed at the row's own domain, no split, no template, on a port
   * other than 465: the typed login is sent after STARTTLS and reported
   * back, and the identity is left as it was.
   */
  lemma DirectDomainOverStartTls(fields: map<string, string>, query: string -> seq<Row>, username: string,
                                 domain: string, row: Row, m: Markers)
    requires Typed(fields, query, username, domain, row)
    requires row.domainName == domain && !row.splitAddress && !EffectiveTemplate(row.template, m)
    requires row.port != Some(SMTPS_PORT)
    ensures Authentication(false, fields, query, Cooperative, m)
            == Attempt(Accepted(fields["login"]), fields,
                       [Open(row.address, TransportFor(row.port), TIMEOUT), Ehlo, StartTls, Ehlo,
                        Login(fields["login"], fields["password"]), Quit])
  {
    TypedReachesSession(fields, query, username, domain, row);
  }

  /** The same attempt with LOGIN refused: a denial after the same commands, QUIT included. */
  lemma DirectDomainRefused(fields: map<string, string>, query: string -> seq<Row>, username: string,
                            domain: string, row: Row, m: Markers)
    requires Typed(fields, query, username, domain, row)
    requires row.domainName == domain && !row.splitAddress && !EffectiveTemplate(row.template, m)
    requires row.port != Some(SMTPS_PORT)
    ensures Authentication(false, fields, query, Cooperative.(login := Fail(SmtpError)), m)
            == Attempt(Denied, fields,
                       [Open(row.address, TransportFor(row.port), TIMEOUT), Ehlo, StartTls, Ehlo,
                        Login(fields["login"], fields["password"]), Quit])
  {
    TypedReachesSession(fields, query, username, domain, row);
  }

  /** On port 465 the connection is implicit TLS and STARTTLS is not sent, although advertised. */
  lemma ImplicitTlsSkipsStartTls(fields: map<string, string>, query: string -> seq<Row>, username: string,
                                 domain: string, row: Row, m: Markers)
    requires Typed(fields, query, username, domain, row)
    requires row.domainName == domain && !row.splitAddress && !EffectiveTemplate(row.template, m)
    requires row.port == Some(SMTPS_PORT)
    ensures Authentication(false, fields, query, Cooperative, m)
            == Attempt(Accepted(fields["login"]), fields,
                       [Open(row.address, ImplicitTls, TIMEOUT), Ehlo, Login(fields["login"], fields["password"]), Quit])
  {
    TypedReachesSession(fields, query, username, domain, row);
  }

  /**
   * A login typed at an alias of the row's domain, with an effective
   * template: the filled template is sent, the username at the row's domain
   * is reported and written back into the identity.
   */
  lemma AliasWithTemplate(fields: map<string, string>, query: string -> seq<Row>, username: string,
                          domain: string, row: Row, m: Markers)
    requires Typed(fields, query, username, domain, row)
    requires row.domainName != domain && EffectiveTemplate(row.template, m)
    requires row.port != Some(SMTPS_PORT)
    ensures Authentication(false, fields, query, Cooperative, m)
            == Attempt(Accepted(Format(username, row.domainName)),
                       fields["login" := Format(username, row.domainName)],
                       [Open(row.address, TransportFor(row.port), TIMEOUT), Ehlo, StartTls, Ehlo,
                        Login(ApplyTemplate(row.template, username, domain, m), fields["password"]), Quit])
  {
    TypedReachesSession(fields, query, username, domain, row);
  }

  /**
   * A login typed at an alias of a domain that splits addresses, without a
   * template: only the username is sent, while the canonical address is
   * reported and written back.
   */
  lemma AliasWithSplitAddress(fields: map<string, string>, query: string -> seq<Row>, username: string,
                              domain: string, row: Row, m: Markers)
    requires Typed(fields, query, username, domain, row)
    requires row.domainName != domain && row.splitAddress && !EffectiveTemplate(row.template, m)
    requires row.port != Some(SMTPS_PORT)
    ensures Authentication(false, fields, query, Cooperative, m)
            == Attempt(Accepted(Format(username, row.domainName)),
                       fields["login" := Format(username, row.domainName)],
                       [Open(row.address, TransportFor(row.port), TIMEOUT), Ehlo, StartTls, Ehlo,
                        Login(username, fields["password"]), Quit])
  {
    TypedReachesSession(fields, query, username, domain, row);
  }

  // ------------------------------------------------ template filling on literals

  const Percent: Markers := Markers("%u", "%d")

  lemma NoMarkerIn(s: string, marker: string)
    requires |marker| == 2
    requires forall i :: 0 <= i < |s| ==> s[i] != marker[0]
    ensures !Contains(s, marker)
  {
    ContainsIffOccurs(s, marker);
    forall i | 0 <= i ensures !OccursAt(s, marker, i) {
      if i + 2 <= |s| {
        assert s[i..i + 2][0] == s[i];
      }
    }
  }

  lemma UserMarkerFilled()
    ensures ReplaceAll("%u@corp.com", "%u", "jane") == "jane@corp.com"
  {
    var t := "%u@corp.com";
    assert t[..2] == "%u";
    assert t[2..] == "@corp.com";
    NoMarkerIn("@corp.com", "%u");
    ReplaceAllAbsent("@corp.com", "%u", "jane");
  }

  /** `%u@corp.com` is effective and, for jane typed at any domain, fills to jane@corp.com. */
  lemma CorpTemplateFilled()
    ensures EffectiveTemplate("%u@corp.com", Percent)
    ensures ApplyTemplate("%u@corp.com", "jane", "alias.co", Percent) == "jane@corp.com"
  {
    var t := "%u@corp.com";
    assert t[..2] == "%u";
    UserMarkerFilled();
    NoMarkerIn("jane@corp.com", "%d");
    ReplaceAllAbsent("jane@corp.com", "%d", "alias.co");
  }
}
