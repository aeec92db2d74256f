/**
 * Parsing of the typed login and derivation of the two strings that a
 * successful attempt needs: the identity reported back to the caller, and
 * the login sent to the SMTP server (after the split-address rule, the
 * canonical-domain rewrite and the per-domain login template).
 */
module Login {
  import opened Strings
  import opened Endpoint

  /** A template marker: a non-empty literal pattern. */
  type Marker = s: string | |s| > 0 witness "%"

  /** The username marker and the domain marker recognised in login templates. */
  datatype Markers = Markers(user: Marker, domain: Marker)

  /** How `user@domain` parsing of the login ends. */
  datatype Parse =
    | NoAt                                         // no `@`: denied before any query
    | TooManyAt                                    // two or more `@`: the two-name unpack fails
    | Address(username: string, domain: string)

  /** `username@domain`. */
  function Format(username: string, domain: string): string
  {
    username + "@" + domain
  }

  /**
   * The membership test for `@` followed by `login.split('@')` and its
   * unpacking into exactly two names.
   */
  function ParseLogin(login: string): (p: Parse)
    ensures p.NoAt? <==> Occurrences(login, '@') == 0
    ensures p.TooManyAt? <==> Occurrences(login, '@') >= 2
    ensures p.Address? ==> login == Format(p.username, p.domain)
    ensures p.Address? ==> Occurrences(p.username, '@') == 0 && Occurrences(p.domain, '@') == 0
  {
    ContainsCharIffOccurrences(login, '@');
    if !Contains(login, "@") then NoAt
    else
      var parts := Split(login, "@");
      SplitCount(login, '@');
      if |parts| != 2 then TooManyAt
      else
        JoinSplit(login, "@");
        SplitPiecesAreFree(login, "@");
        ContainsCharIffOccurrences(parts[0], '@');
        ContainsCharIffOccurrences(parts[1], '@');
        assert parts[1..] == [parts[1]];
        Address(parts[0], parts[1])
  }

  /** Parsing a formatted address gives back its two halves when neither holds an `@`. */
  lemma ParseFormat(username: string, domain: string)
    requires Occurrences(username, '@') == 0 && Occurrences(domain, '@') == 0
    ensures ParseLogin(Format(username, domain)) == Address(username, domain)
  {
    var login := Format(username, domain);
    OccurrencesConcat(username + "@", domain, '@');
    OccurrencesConcat(username, "@", '@');
    var p := ParseLogin(login);
    var u, d := p.username, p.domain;
    assert u + "@" + d == username + "@" + domain;
    if |u| < |username| {
      assert login[|u|] == '@';
      NoOccurrences(username, '@', |u|);
    } else if |u| > |username| {
      assert login[|username|] == '@';
      NoOccurrences(u, '@', |username|);
    }
    assert u == login[..|u|];
    assert d == login[|u| + 1..];
  }

  /** A template takes effect when it is non-empty and contains either marker. */
  predicate EffectiveTemplate(template: string, m: Markers)
    ensures EffectiveTemplate(template, m) <==>
            exists i :: OccursAt(template, m.user, i) || OccursAt(template, m.domain, i)
  {
    ContainsIffOccurs(template, m.user);
    ContainsIffOccurs(template, m.domain);
    template != [] && (Contains(template, m.user) || Contains(template, m.domain))
  }

  /** Every user marker becomes the username, then every domain marker becomes the typed domain. */
  function ApplyTemplate(template: string, username: string, domain: string, m: Markers): (login: string)
    ensures !Contains(template, m.user) && !Contains(template, m.domain) ==> login == template
  {
    MarkerlessFillUnchanged(template, username, domain, m);
    ReplaceAll(ReplaceAll(template, m.user, username), m.domain, domain)
  }

  /** Substituting markers that do not occur changes nothing. */
  lemma MarkerlessFillUnchanged(template: string, username: string, domain: string, m: Markers)
    ensures !Contains(template, m.user) && !Contains(template, m.domain) ==>
            ReplaceAll(ReplaceAll(template, m.user, username), m.domain, domain) == template
  {
    if !Contains(template, m.user) && !Contains(template, m.domain) {
      ReplaceAllAbsent(template, m.user, username);
      ReplaceAllAbsent(template, m.domain, domain);
    }
  }

  /** The identity to report and the login to send to the SMTP server. */
  datatype Credentials = Credentials(identity: string, smtpLogin: string)

  /**
   * The rewriting applied to a parsed login `username@domain` once the
   * first row is known. The identity is rewritten to the row's domain when
   * it differs from the typed one; the SMTP login is then the bare username
   * (split address), the rewritten address (different domain), or the typed
   * login, unless an effective template overrides it.
   */
  function Rewrite(login: string, username: string, domain: string, row: Row, m: Markers): (c: Credentials)
    ensures c.identity == if domain != row.domainName then Format(username, row.domainName) else login
    ensures EffectiveTemplate(row.template, m) ==> c.smtpLogin == ApplyTemplate(row.template, username, domain, m)
    ensures !EffectiveTemplate(row.template, m) && row.splitAddress ==> c.smtpLogin == username
    ensures !EffectiveTemplate(row.template, m) && !row.splitAddress ==> c.smtpLogin == c.identity
  {
    var canonical := domain != row.domainName;
    var identity := if canonical then Format(username, row.domainName) else login;
    var afterSplit := if row.splitAddress then username else login;
    var afterCanonical := if canonical && !row.splitAddress then Format(username, row.domainName) else afterSplit;
    var smtpLogin := if EffectiveTemplate(row.template, m) then ApplyTemplate(row.template, username, domain, m)
                     else afterCanonical;
    Credentials(identity, smtpLogin)
  }

  /**
   * The reported identity is always the username at the row's domain; when
   * the typed domain is already that domain it is the typed login itself.
   */
  lemma ReportedIdentityIsCanonical(login: string, username: string, domain: string, row: Row, m: Markers)
    requires ParseLogin(login) == Address(username, domain)
    ensures Rewrite(login, username, domain, row, m).identity == Format(username, row.domainName)
    ensures domain == row.domainName ==> Rewrite(login, username, domain, row, m).identity == login
  {
  }

  /**
   * Without an effective template the SMTP login is the bare username when
   * addresses are split, and otherwise the reported identity: the typed
   * login, or the username at the row's domain when the domains differ.
   */
  lemma LoginWithoutTemplate(login: string, username: string, domain: string, row: Row, m: Markers)
    requires ParseLogin(login) == Address(username, domain)
    requires !EffectiveTemplate(row.template, m)
    ensures row.splitAddress ==> Rewrite(login, username, domain, row, m).smtpLogin == username
    ensures !row.splitAddress ==> Rewrite(login, username, domain, row, m).smtpLogin == Format(username, row.domainName)
    ensures !row.splitAddress && domain == row.domainName ==> Rewrite(login, username, domain, row, m).smtpLogin == login
  {
  }

  /**
   * An effective template decides the SMTP login alone: neither the
   * split-address flag nor the row's domain has any influence, and the
   * markers are filled with the username and the TYPED domain.
   */
  lemma TemplateOverridesLogin(login: string, username: string, domain: string, row: Row, m: Markers,
                               split: bool, domainName: string)
    requires EffectiveTemplate(row.template, m)
    ensures Rewrite(login, username, domain, row.(splitAddress := split, domainName := domainName), m).smtpLogin
            == ApplyTemplate(row.template, username, domain, m)
  {
  }

  /**
   * A template with neither marker is ignored rather than used verbatim:
   * filling it in would give back the template text itself.
   */
  lemma MarkerlessTemplateIgnored(login: string, username: string, domain: string, row: Row, m: Markers)
    requires row.template != [] && !Contains(row.template, m.user) && !Contains(row.template, m.domain)
    ensures ApplyTemplate(row.template, username, domain, m) == row.template
    ensures Rewrite(login, username, domain, row, m).smtpLogin
            == Rewrite(login, username, domain, row.(template := []), m).smtpLogin
  {
  }

  /**
   * Template filling is the join of the pieces between the markers: first
   * the user-marker pieces joined with the username, then the domain-marker
   * pieces of that joined with the typed domain.
   */
  lemma ApplyTemplateByPieces(template: string, username: string, domain: string, m: Markers)
    ensures ApplyTemplate(template, username, domain, m)
            == Join(Split(Join(Split(template, m.user), username), m.domain), domain)
  {
    ReplaceAllIsJoinSplit(template, m.user, username);
    ReplaceAllIsJoinSplit(ReplaceAll(template, m.user, username), m.domain, domain);
  }
}
