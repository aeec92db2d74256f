/**
 * Selection of the SMTP endpoint for a typed domain, over in-memory copies of
 * the three tables the authenticator queries: authentication servers, domains
 * and domain aliases.
 *
 * The query joins each server to its owning domain, but the alias table
 * appears only inside the WHERE clause, so it enters the FROM list as a
 * cross product. `QueryRows` models the query as written, one candidate row
 * per (server, domain, alias) triple; `EndpointRows` is the selection the
 * query evidently intends, where the alias condition is an existence test.
 * Rows come out server-major, then domain, then alias: the query has no
 * ORDER BY, and this is the order the model fixes.
 */
module Endpoint {
  import opened Wrappers

  /** The protocol tag of an SMTP server in the authentication-server table. */
  const SMTP_PROTOCOL := 3

  /** A row of the authentication-server table; `domainId` is the owning domain. */
  datatype AuthServer = AuthServer(
    domainId: int,
    protocol: int,
    enabled: bool,
    port: Option<int>,
    address: string,
    splitAddress: bool,
    userMapTemplate: string)

  datatype Domain = Domain(id: int, name: string, status: bool)

  datatype DomainAlias = DomainAlias(domainId: int, name: string, status: bool)

  /** One result row: the five selected columns. */
  datatype Row = Row(
    port: Option<int>,
    address: string,
    splitAddress: bool,
    template: string,
    domainName: string)

  function RowOf(c: AuthServer, d: Domain): Row
  {
    Row(c.port, c.address, c.splitAddress, c.userMapTemplate, d.name)
  }

  /** The join condition and the three filters that do not involve aliases. */
  predicate Usable(c: AuthServer, d: Domain)
  {
    c.domainId == d.id && c.protocol == SMTP_PROTOCOL && c.enabled && d.status
  }

  /** `a` is an active alias named `domain` that points at `d`. */
  predicate AliasOf(a: DomainAlias, d: Domain, domain: string)
  {
    d.id == a.domainId && a.name == domain && a.status
  }

  /** The WHERE clause, evaluated on one triple of the FROM product. */
  predicate Selected(c: AuthServer, d: Domain, a: DomainAlias, domain: string)
  {
    Usable(c, d) && (d.name == domain || AliasOf(a, d, domain))
  }

  // ---------------------------------------------------------------- as written

  function AliasRows(c: AuthServer, d: Domain, aliases: seq<DomainAlias>, domain: string): (rows: seq<Row>)
    ensures |rows| <= |aliases|
  {
    if aliases == [] then []
    else (if Selected(c, d, aliases[0], domain) then [RowOf(c, d)] else [])
         + AliasRows(c, d, aliases[1..], domain)
  }

  function DomainRows(c: AuthServer, domains: seq<Domain>, aliases: seq<DomainAlias>, domain: string): (rows: seq<Row>)
    ensures aliases == [] ==> rows == []
  {
    if domains == [] then []
    else AliasRows(c, domains[0], aliases, domain) + DomainRows(c, domains[1..], aliases, domain)
  }

  /** The rows the query returns for the typed `domain`, as written. */
  function QueryRows(servers: seq<AuthServer>, domains: seq<Domain>, aliases: seq<DomainAlias>,
                     domain: string): (rows: seq<Row>)
    // the alias table is part of the product: without aliases nothing is returned
    ensures aliases == [] ==> rows == []
  {
    if servers == [] then []
    else DomainRows(servers[0], domains, aliases, domain) + QueryRows(servers[1..], domains, aliases, domain)
  }

  // ---------------------------------------------------------------- intended

  /** A usable server whose domain is named `domain` or has an active alias so named. */
  predicate Eligible(c: AuthServer, d: Domain, aliases: seq<DomainAlias>, domain: string)
  {
    Usable(c, d) && (d.name == domain || exists a :: a in aliases && AliasOf(a, d, domain))
  }

  function EligibleRows(c: AuthServer, domains: seq<Domain>, aliases: seq<DomainAlias>, domain: string): (rows: seq<Row>)
    ensures |rows| <= |domains|
    ensures aliases == [] ==> forall i :: 0 <= i < |rows| ==> rows[i].domainName == domain
  {
    if domains == [] then []
    else (if Eligible(c, domains[0], aliases, domain) then [RowOf(c, domains[0])] else [])
         + EligibleRows(c, domains[1..], aliases, domain)
  }

  /** One row per eligible (server, domain) pair, in the same order as `QueryRows`. */
  function EndpointRows(servers: seq<AuthServer>, domains: seq<Domain>, aliases: seq<DomainAlias>,
                        domain: string): (rows: seq<Row>)
    // without aliases only the domains named as typed are selected
    ensures aliases == [] ==> forall i :: 0 <= i < |rows| ==> rows[i].domainName == domain
  {
    if servers == [] then []
    else EligibleRows(servers[0], domains, aliases, domain) + EndpointRows(servers[1..], domains, aliases, domain)
  }

  // ---------------------------------------------------------------- lemmas

  lemma {:induction false} AliasRowsMembers(c: AuthServer, d: Domain, aliases: seq<DomainAlias>, domain: string, r: Row)
    ensures r in AliasRows(c, d, aliases, domain) <==>
            r == RowOf(c, d) && exists a :: a in aliases && Selected(c, d, a, domain)
    decreases |aliases|
  {
    if aliases != [] {
      AliasRowsMembers(c, d, aliases[1..], domain, r);
      if exists a :: a in aliases && Selected(c, d, a, domain) {
        var a :| a in aliases && Selected(c, d, a, domain);
        if a != aliases[0] {
          assert a in aliases[1..];
        }
      }
      if exists a :: a in aliases[1..] && Selected(c, d, a, domain) {
        var a :| a in aliases[1..] && Selected(c, d, a, domain);
        assert a in aliases;
      }
    }
  }

  lemma {:induction false} DomainRowsMembers(c: AuthServer, domains: seq<Domain>, aliases: seq<DomainAlias>,
                                             domain: string, r: Row)
    ensures r in DomainRows(c, domains, aliases, domain) <==>
            exists d, a :: d in domains && a in aliases && Selected(c, d, a, domain) && r == RowOf(c, d)
    decreases |domains|
  {
    if domains != [] {
      DomainRowsMembers(c, domains[1..], aliases, domain, r);
      AliasRowsMembers(c, domains[0], aliases, domain, r);
      if exists d, a :: d in domains && a in aliases && Selected(c, d, a, domain) && r == RowOf(c, d) {
        var d, a :| d in domains && a in aliases && Selected(c, d, a, domain) && r == RowOf(c, d);
        if d != domains[0] {
          assert d in domains[1..];
        }
      }
      if exists d, a :: d in domains[1..] && a in aliases && Selected(c, d, a, domain) && r == RowOf(c, d) {
        var d, a :| d in domains[1..] && a in aliases && Selected(c, d, a, domain) && r == RowOf(c, d);
        assert d in domains;
      }
    }
  }

  /**
   * What the query returns, as written: the row of every server and domain
   * that, together with SOME alias row of the whole alias table, satisfies
   * the WHERE clause.
   */
  lemma {:induction false} QueryRowsMembers(servers: seq<AuthServer>, domains: seq<Domain>,
                                            aliases: seq<DomainAlias>, domain: string, r: Row)
    ensures r in QueryRows(servers, domains, aliases, domain) <==>
            exists c, d, a :: c in servers && d in domains && a in aliases && Selected(c, d, a, domain)
                              && r == RowOf(c, d)
    decreases |servers|
  {
    if servers != [] {
      QueryRowsMembers(servers[1..], domains, aliases, domain, r);
      DomainRowsMembers(servers[0], domains, aliases, domain, r);
      if exists c, d, a :: c in servers && d in domains && a in aliases && Selected(c, d, a, domain)
                           && r == RowOf(c, d) {
        var c, d, a :| c in servers && d in domains && a in aliases && Selected(c, d, a, domain)
                       && r == RowOf(c, d);
        if c != servers[0] {
          assert c in servers[1..];
        }
      }
      if exists c, d, a :: c in servers[1..] && d in domains && a in aliases && Selected(c, d, a, domain)
                           && r == RowOf(c, d) {
        var c, d, a :| c in servers[1..] && d in domains && a in aliases && Selected(c, d, a, domain)
                       && r == RowOf(c, d);
        assert c in servers;
      }
    }
  }

  lemma {:induction false} EligibleRowsMembers(c: AuthServer, domains: seq<Domain>, aliases: seq<DomainAlias>,
                                               domain: string, r: Row)
    ensures r in EligibleRows(c, domains, aliases, domain) <==>
            exists d :: d in domains && Eligible(c, d, aliases, domain) && r == RowOf(c, d)
    decreases |domains|
  {
    if domains != [] {
      EligibleRowsMembers(c, domains[1..], aliases, domain, r);
      if exists d :: d in domains && Eligible(c, d, aliases, domain) && r == RowOf(c, d) {
        var d :| d in domains && Eligible(c, d, aliases, domain) && r == RowOf(c, d);
        if d != domains[0] {
          assert d in domains[1..];
        }
      }
      if exists d :: d in domains[1..] && Eligible(c, d, aliases, domain) && r == RowOf(c, d) {
        var d :| d in domains[1..] && Eligible(c, d, aliases, domain) && r == RowOf(c, d);
        assert d in domains;
      }
    }
  }

  /**
   * What the intended selection returns: the row of every usable server
   * whose domain is the typed name or has an active alias with that name.
   */
  lemma {:induction false} EndpointRowsMembers(servers: seq<AuthServer>, domains: seq<Domain>,
                                               aliases: seq<DomainAlias>, domain: string, r: Row)
    ensures r in EndpointRows(servers, domains, aliases, domain) <==>
            exists c, d :: c in servers && d in domains && Eligible(c, d, aliases, domain) && r == RowOf(c, d)
    decreases |servers|
  {
    if servers != [] {
      EndpointRowsMembers(servers[1..], domains, aliases, domain, r);
      EligibleRowsMembers(servers[0], domains, aliases, domain, r);
      if exists c, d :: c in servers && d in domains && Eligible(c, d, aliases, domain) && r == RowOf(c, d) {
        var c, d :| c in servers && d in domains && Eligible(c, d, aliases, domain) && r == RowOf(c, d);
        if c != servers[0] {
          assert c in servers[1..];
        }
      }
      if exists c, d :: c in servers[1..] && d in domains && Eligible(c, d, aliases, domain) && r == RowOf(c, d) {
        var c, d :| c in servers[1..] && d in domains && Eligible(c, d, aliases, domain) && r == RowOf(c, d);
        assert c in servers;
      }
    }
  }

  lemma {:induction false} NoAliasesNoDomainRows(c: AuthServer, domains: seq<Domain>, domain: string)
    ensures DomainRows(c, domains, [], domain) == []
    decreases |domains|
  {
    if domains != [] {
      NoAliasesNoDomainRows(c, domains[1..], domain);
    }
  }

  /**
   * As written, an empty alias table empties the FROM product: even a server
   * whose domain is named exactly as typed yields no row, while the intended
   * selection yields one.
   */
  lemma {:induction false} EmptyAliasTableHidesDirectMatch(servers: seq<AuthServer>, domains: seq<Domain>,
                                                           domain: string, c: AuthServer, d: Domain)
    requires c in servers && d in domains && Usable(c, d) && d.name == domain
    ensures QueryRows(servers, domains, [], domain) == []
    ensures RowOf(c, d) in EndpointRows(servers, domains, [], domain)
    decreases |servers|
  {
    EndpointRowsMembers(servers, domains, [], domain, RowOf(c, d));
    if servers != [] {
      NoAliasesNoDomainRows(servers[0], domains, domain);
      if c in servers[1..] {
        EmptyAliasTableHidesDirectMatch(servers[1..], domains, domain, c, d);
      } else {
        NoAliasesQueryRows(servers[1..], domains, domain);
      }
    }
  }

  lemma {:induction false} NoAliasesQueryRows(servers: seq<AuthServer>, domains: seq<Domain>, domain: string)
    ensures QueryRows(servers, domains, [], domain) == []
    decreases |servers|
  {
    if servers != [] {
      NoAliasesNoDomainRows(servers[0], domains, domain);
      NoAliasesQueryRows(servers[1..], domains, domain);
    }
  }

  /** With at least one alias row, a (server, domain) pair yields rows exactly when it is eligible. */
  lemma AliasRowsWhenAliasesExist(c: AuthServer, d: Domain, aliases: seq<DomainAlias>, domain: string)
    requires aliases != []
    ensures AliasRows(c, d, aliases, domain) != [] <==> Eligible(c, d, aliases, domain)
    ensures AliasRows(c, d, aliases, domain) != [] ==> AliasRows(c, d, aliases, domain)[0] == RowOf(c, d)
  {
    var rows := AliasRows(c, d, aliases, domain);
    AliasRowsMembers(c, d, aliases, domain, RowOf(c, d));
    if rows != [] {
      AliasRowsMembers(c, d, aliases, domain, rows[0]);
      var a :| a in aliases && Selected(c, d, a, domain);
    }
    if Eligible(c, d, aliases, domain) {
      if d.name == domain {
        assert Selected(c, d, aliases[0], domain);
      } else {
        var a :| a in aliases && AliasOf(a, d, domain);
        assert Selected(c, d, a, domain);
      }
    }
  }

  lemma {:induction false} DomainRowsAgree(c: AuthServer, domains: seq<Domain>, aliases: seq<DomainAlias>, domain: string)
    requires aliases != []
    ensures DomainRows(c, domains, aliases, domain) == [] <==> EligibleRows(c, domains, aliases, domain) == []
    ensures DomainRows(c, domains, aliases, domain) != [] ==>
            DomainRows(c, domains, aliases, domain)[0] == EligibleRows(c, domains, aliases, domain)[0]
    decreases |domains|
  {
    if domains != [] {
      AliasRowsWhenAliasesExist(c, domains[0], aliases, domain);
      DomainRowsAgree(c, domains[1..], aliases, domain);
    }
  }

  /** With at least one alias row, a row is returned as written exactly when the intended selection returns it. */
  lemma QueryRowAgrees(servers: seq<AuthServer>, domains: seq<Domain>, aliases: seq<DomainAlias>,
                       domain: string, r: Row)
    requires aliases != []
    ensures r in QueryRows(servers, domains, aliases, domain) <==> r in EndpointRows(servers, domains, aliases, domain)
  {
    QueryRowsMembers(servers, domains, aliases, domain, r);
    EndpointRowsMembers(servers, domains, aliases, domain, r);
    if exists c, d :: c in servers && d in domains && Eligible(c, d, aliases, domain) && r == RowOf(c, d) {
      var c, d :| c in servers && d in domains && Eligible(c, d, aliases, domain) && r == RowOf(c, d);
      AliasRowsWhenAliasesExist(c, d, aliases, domain);
      AliasRowsMembers(c, d, aliases, domain, r);
    }
    if exists c, d, a :: c in servers && d in domains && a in aliases && Selected(c, d, a, domain)
                         && r == RowOf(c, d) {
      var c, d, a :| c in servers && d in domains && a in aliases && Selected(c, d, a, domain)
                     && r == RowOf(c, d);
      assert Eligible(c, d, aliases, domain);
    }
  }

  /** With at least one alias row, both queries are empty together and start with the same row. */
  lemma {:induction false} QueryHeadAgrees(servers: seq<AuthServer>, domains: seq<Domain>,
                                           aliases: seq<DomainAlias>, domain: string)
    requires aliases != []
    ensures QueryRows(servers, domains, aliases, domain) == [] <==> EndpointRows(servers, domains, aliases, domain) == []
    ensures QueryRows(servers, domains, aliases, domain) != [] ==>
            QueryRows(servers, domains, aliases, domain)[0] == EndpointRows(servers, domains, aliases, domain)[0]
    decreases |servers|
  {
    if servers != [] {
      DomainRowsAgree(servers[0], domains, aliases, domain);
      QueryHeadAgrees(servers[1..], domains, aliases, domain);
    }
  }

  /**
   * Once the alias table holds at least one row, the query as written
   * returns the same rows as the intended selection (up to repetition) and
   * the same first row, which is the only one the authenticator reads.
   */
  lemma QueryAgreesWhenAliasesExist(servers: seq<AuthServer>, domains: seq<Domain>,
                                    aliases: seq<DomainAlias>, domain: string)
    requires aliases != []
    ensures forall r :: r in QueryRows(servers, domains, aliases, domain) <==>
                        r in EndpointRows(servers, domains, aliases, domain)
    ensures QueryRows(servers, domains, aliases, domain) == [] <==> EndpointRows(servers, domains, aliases, domain) == []
    ensures QueryRows(servers, domains, aliases, domain) != [] ==>
            QueryRows(servers, domains, aliases, domain)[0] == EndpointRows(servers, domains, aliases, domain)[0]
  {
    forall r ensures r in QueryRows(servers, domains, aliases, domain) <==>
                     r in EndpointRows(servers, domains, aliases, domain) {
      QueryRowAgrees(servers, domains, aliases, domain, r);
    }
    QueryHeadAgrees(servers, domains, aliases, domain);
  }
}
