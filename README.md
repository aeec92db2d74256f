# Baruwa SMTP authenticator, modelled in Dafny

Baruwa's SMTP authenticator checks a user's mail login by handing it to an
upstream SMTP server. `BaruwaSMTPAuthPlugin.authenticate` runs these steps:

1. Ask the failed-login check whether the caller is locked out.
2. Split the typed login `user@domain`.
3. Query the database for the SMTP endpoint of that domain, or of the domain
   it is an alias of.
4. Rewrite the reported identity to the canonical domain, and derive the
   login to send (bare username when addresses are split; a per-domain
   template may override it).
5. Connect: implicit TLS on port 465, the default port for 25 or none,
   otherwise the configured port; timeout 5 seconds.
6. EHLO, STARTTLS plus a second EHLO when advertised and the port is not 465,
   then LOGIN.

It returns the identity, or `None` when any handled exception occurred. A
connection that was created is always closed with QUIT.

The project:

- `wrappers.dfy`: `Option`.
- `strings.dfy`: the string operations the code relies on: `in`,
  `str.split`, literal substitution, with their round trips.
- `endpoint.dfy`: the three tables and the endpoint query. `QueryRows` is
  the query as written; `EndpointRows` is the intended selection.
- `login.dfy`: login parsing (`ParseLogin`) and the identity and
  SMTP-login rewriting (`Rewrite`).
- `smtp.dfy`:
  - port policy (`TransportFor`) and the STARTTLS rule;
  - the handshake as a function over a scripted server (`Handshake`);
  - a connection class whose methods append to its command log.
- `smtpauth.dfy`:
  - `Authentication`: the whole attempt as a function of the lockout
    verdict, the identity dictionary, the query and the server script;
  - the plugin class, whose imperative `Authenticate` is proved equal to it.
    It rewrites the identity dictionary in place, drives the connection
    object, and handles the exception, then the cleanup.
- `properties.dfy`: what an attempt guarantees (early denials, escapes,
  reported identity, STARTTLS, cleanup, idempotence, store-level query).
- `scenarios.dfy`: whole attempts with their exact command traces.

Python's `try/except/finally` is modelled by `SmtpAuth.Settle`:

- The exception classes in the handler's tuple become a denial.
- Any other exception (`ValueError`) escapes to the caller.
- When the connection object exists, QUIT is sent. An exception from QUIT
  other than `SMTPServerDisconnected` replaces the result.

Behaviour of the code worth noting, which the model keeps:

- A login with two or more `@` is not denied. Unpacking `login.split('@')`
  into two names raises `ValueError`, which the handler does not catch
  (`AttemptProperties.SeveralAtEscapes`).
- A template that is non-empty but holds neither marker is ignored, not used
  verbatim (`Login.MarkerlessTemplateIgnored`).
- The template's domain marker is filled with the typed domain, not the
  canonical one (`Login.TemplateOverridesLogin`).
- Of the teardown failures, only a server that already disconnected is
  swallowed; any other exception from QUIT escapes
  (`AttemptProperties.QuitFailureOverridesResult`).

## Model

| member | source | states |
|---|---|---|
| Strings.ContainsCharIffOccurrences | baruwa/lib/auth/smtpauth.py:60 | substring membership of a one-character string holds exactly when the character occurs at least once |
| Strings.SplitCount | baruwa/lib/auth/smtpauth.py:63 | splitting on a character gives one more piece than it has occurrences |
| Strings.JoinSplit | baruwa/lib/auth/smtpauth.py:63 | joining the pieces of a split with the separator gives back the string |
| Strings.SplitPiecesAreFree | baruwa/lib/auth/smtpauth.py:63 | no piece of a split contains the separator |
| Strings.Split | baruwa/lib/auth/smtpauth.py:63 | a split always has at least one piece (Python's `str.split` with an explicit separator) |
| Strings.ReplaceAllIsJoinSplit | baruwa/lib/auth/smtpauth.py:95-96 | replacing every occurrence is splitting on the pattern and joining with the replacement |
| Strings.ReplaceAllAbsent | baruwa/lib/auth/smtpauth.py:95-96 | replacing a pattern that does not occur leaves the string unchanged |
| Endpoint.QueryRows | baruwa/lib/auth/smtpauth.py:65-80 | the query as written returns nothing when the alias table is empty |
| Endpoint.EndpointRows | baruwa/lib/auth/smtpauth.py:65-80 | the intended selection, without aliases, returns only rows of domains named as typed |
| Endpoint.QueryRowsMembers | baruwa/lib/auth/smtpauth.py:65-80 | a row is returned iff some (server, domain, alias) triple of the product passes the join, protocol 3, enabled, active-domain filters and "name matches or the alias is an active alias of it" |
| Endpoint.EndpointRowsMembers | baruwa/lib/auth/smtpauth.py:65-80 | the intended selection returns a row iff a usable server's domain is named the typed domain or has an active alias so named |
| Endpoint.NoAliasesQueryRows | baruwa/lib/auth/smtpauth.py:65-80 | as written, an empty alias table makes the query return nothing for every domain |
| Endpoint.EmptyAliasTableHidesDirectMatch | baruwa/lib/auth/smtpauth.py:65-80 | a usable server whose domain is named exactly as typed is found by the intended selection but not by the query as written when there are no aliases |
| Endpoint.QueryRowAgrees | baruwa/lib/auth/smtpauth.py:65-80 | with a non-empty alias table a row is returned as written iff the intended selection returns it |
| Endpoint.QueryHeadAgrees | baruwa/lib/auth/smtpauth.py:65-82 | with a non-empty alias table both queries are empty together and have the same first row |
| Endpoint.QueryAgreesWhenAliasesExist | baruwa/lib/auth/smtpauth.py:65-82 | with a non-empty alias table the query as written and the intended selection return the same rows (as a set), are empty together, and have the same first row |
| Login.ParseLogin | baruwa/lib/auth/smtpauth.py:60-63 | no `@` is the early denial, two or more `@` is the failed unpack, exactly one gives the two halves, which rebuild the login and hold no `@` |
| Login.ParseFormat | baruwa/lib/auth/smtpauth.py:60-63 | parsing `user@domain` with `@`-free halves gives those halves back |
| Login.EffectiveTemplate | baruwa/lib/auth/smtpauth.py:92-93 | a template takes effect iff it holds the user marker or the domain marker at some position |
| Login.ApplyTemplate | baruwa/lib/auth/smtpauth.py:95-96 | filling a template that holds neither marker gives the template back |
| Login.Rewrite | baruwa/lib/auth/smtpauth.py:84-96 | the identity is the username at the row's domain when the typed domain differs, else the typed login; the SMTP login is the filled template when one takes effect, else the bare username when split, else the identity |
| Login.ReportedIdentityIsCanonical | baruwa/lib/auth/smtpauth.py:87-88 | the identity to report is the username at the row's domain, and the typed login when the typed domain is that domain |
| Login.LoginWithoutTemplate | baruwa/lib/auth/smtpauth.py:84-90 | without an effective template the SMTP login is the bare username when split, else the username at the row's domain (the typed login when domains agree) |
| Login.TemplateOverridesLogin | baruwa/lib/auth/smtpauth.py:92-96 | an effective template alone decides the SMTP login, whatever the split flag and row domain, filled with the username and the typed domain |
| Login.MarkerlessTemplateIgnored | baruwa/lib/auth/smtpauth.py:92-96 | a non-empty template without either marker leaves the SMTP login as if there were no template |
| Login.MarkerlessFillUnchanged | baruwa/lib/auth/smtpauth.py:95-96 | substituting markers that do not occur in the template gives the template back |
| Login.ApplyTemplateByPieces | baruwa/lib/auth/smtpauth.py:95-96 | filling a template is user-marker substitution first, then domain-marker substitution of the result |
| Smtp.Caught | baruwa/lib/auth/smtpauth.py:111-112 | the handler's tuple catches every modelled exception except ValueError and the catch-all for anything else; SMTPServerDisconnected is caught as an SMTPException |
| Smtp.TransportFor | baruwa/lib/auth/smtpauth.py:98-103 | port 465 is implicit TLS, 25 or unset is plaintext on the default port, any other port is plaintext on that port |
| Smtp.StartTlsOnlyOverPlaintext | baruwa/lib/auth/smtpauth.py:106 | STARTTLS is needed exactly when advertised on a plaintext connection |
| Smtp.StartTlsNeeded | baruwa/lib/auth/smtpauth.py:106 | STARTTLS is needed only for an advertising server on a plaintext connection |
| Smtp.Handshake | baruwa/lib/auth/smtpauth.py:105-109 | the exact commands per branch: [EHLO] when EHLO fails, [EHLO, LOGIN] without upgrade, [EHLO, STARTTLS] when STARTTLS fails, [EHLO, STARTTLS, EHLO] then LOGIN if the second EHLO succeeds; EHLO comes first; STARTTLS is sent iff EHLO succeeded and it is needed, and a successful STARTTLS is followed by the second EHLO; LOGIN is sent iff EHLO and, when needed, STARTTLS and the second EHLO succeeded, and it carries the given credentials; the outcome is the first failing step's, or LOGIN's |
| Smtp.SmtpConnection.Ehlo | baruwa/lib/auth/smtpauth.py:105 | sends EHLO; its outcome is the first or the post-TLS greeting |
| Smtp.SmtpConnection.StartTls | baruwa/lib/auth/smtpauth.py:107 | sends STARTTLS and records whether the channel is upgraded |
| Smtp.SmtpConnection.Login | baruwa/lib/auth/smtpauth.py:109 | sends LOGIN with the given credentials |
| Smtp.SmtpConnection.Quit | baruwa/lib/auth/smtpauth.py:117 | sends QUIT |
| Smtp.Connect | baruwa/lib/auth/smtpauth.py:98-103 | the connection object exists iff connecting succeeds; otherwise the connect exception is returned |
| SmtpAuth.Settle | baruwa/lib/auth/smtpauth.py:111-119 | an exception from QUIT other than a disconnect replaces the result; otherwise a returned identity is accepted, a returned None or an exception in the handler's tuple is a denial, and any other exception escapes; a disconnect never escapes |
| SmtpAuth.Session | baruwa/lib/auth/smtpauth.py:84-110 | from the first row on, the connection request comes first, a connection exists iff connecting succeeds, and the block returns the identity's login or raises, never None |
| SmtpAuth.Protected | baruwa/lib/auth/smtpauth.py:52-110 | None is returned only before anything is sent; a connection implies connecting succeeded; a returned identity is the dictionary's login |
| SmtpAuth.Authentication | baruwa/lib/auth/smtpauth.py:50-120 | only the identity's `login` entry can change, and an accepted identity is the login left in the dictionary |
| SmtpAuth.BaruwaSmtpAuthPlugin.constructor | baruwa/lib/auth/smtpauth.py:41-48 | the plugin is named `smtp` and keeps its query and markers |
| SmtpAuth.BaruwaSmtpAuthPlugin.Authenticate | baruwa/lib/auth/smtpauth.py:50-120 | outcome, identity dictionary afterwards and command trace are exactly those of `Authentication` |
| SmtpAuth.BaruwaSmtpAuthPlugin.Attempted | baruwa/lib/auth/smtpauth.py:52-82 | the protected block up to the first row ends as `Protected` says |
| SmtpAuth.BaruwaSmtpAuthPlugin.Connected | baruwa/lib/auth/smtpauth.py:84-110 | the step-by-step login rewriting, connection and handshake end as `Session` says |
| SmtpAuth.BaruwaSmtpAuthPlugin.Converse | baruwa/lib/auth/smtpauth.py:105-109 | the commands sent on the connection and the last step's outcome are `Handshake`'s |
| AttemptProperties.LockoutShortCircuits | baruwa/lib/auth/smtpauth.py:53-54 | a locked-out caller is denied with the identity untouched and no command sent |
| AttemptProperties.MissingEntryDenied | baruwa/lib/auth/smtpauth.py:56-57 | a missing login or password entry is a silent denial with nothing sent |
| AttemptProperties.LoginWithoutAtDenied | baruwa/lib/auth/smtpauth.py:60-61 | a login without `@` is denied with nothing sent |
| AttemptProperties.SeveralAtEscapes | baruwa/lib/auth/smtpauth.py:63 | a login with two or more `@` raises ValueError to the caller, with nothing sent |
| AttemptProperties.EmptyQueryDenied | baruwa/lib/auth/smtpauth.py:81-82 | an empty query result is a denial with nothing sent |
| AttemptProperties.OnlyFirstRowConsulted | baruwa/lib/auth/smtpauth.py:81-82 | two queries that agree on the typed domain's first row give identical attempts |
| AttemptProperties.AcceptedIdentity | baruwa/lib/auth/smtpauth.py:105-110 | acceptance implies the attempt reached the first row, connect, EHLO and LOGIN succeeded, the rewritten login was sent, and the username at the row's domain is reported |
| AttemptProperties.AcceptedWhenHandshakeSucceeds | baruwa/lib/auth/smtpauth.py:105-110 | conversely a fully successful handshake with a clean or disconnected QUIT is accepted with that identity |
| AttemptProperties.OnlyRewrittenLoginSent | baruwa/lib/auth/smtpauth.py:84-109 | every LOGIN in the trace carries the rewritten SMTP login and the typed password |
| AttemptProperties.IdentityRewrittenInPlace | baruwa/lib/auth/smtpauth.py:87-88 | the identity's login is rewritten to the canonical address iff the row's domain differs from the typed one, whatever the outcome |
| AttemptProperties.ConnectionAlwaysClosed | baruwa/lib/auth/smtpauth.py:114-119 | a connection is requested iff the first row is reached; QUIT is sent iff connecting succeeded, exactly once and last |
| AttemptProperties.DisconnectOnQuitSwallowed | baruwa/lib/auth/smtpauth.py:116-119 | a disconnect on QUIT gives the same attempt as a clean QUIT |
| AttemptProperties.QuitFailureOverridesResult | baruwa/lib/auth/smtpauth.py:114-119 | any other QUIT exception escapes and replaces the result |
| AttemptProperties.StartTlsDecision | baruwa/lib/auth/smtpauth.py:106-108 | after a successful EHLO, STARTTLS is in the trace iff advertised and the port is not 465, only on a plaintext connection; a successful STARTTLS is followed by the second EHLO, and otherwise no EHLO follows the first |
| AttemptProperties.CredentialsOnlyAfterUpgrade | baruwa/lib/auth/smtpauth.py:106-109 | when the upgrade is needed, the credentials are sent iff STARTTLS and the second EHLO succeeded |
| AttemptProperties.NoEscapeUnlessSeveralAt | baruwa/lib/auth/smtpauth.py:111-113 | against a server whose failures are all in the handler's tuple, only a login with several `@` can raise |
| AttemptProperties.RepeatedAttemptStable | baruwa/lib/auth/smtpauth.py:84-110 | when the typed domain is already the row's or no template takes effect, re-running an attempt on the identity it left behind is the identical attempt: outcome, identity and commands |
| AttemptProperties.EmptyAliasTableDeniesEveryone | baruwa/lib/auth/smtpauth.py:65-82 | with the query as written and no alias rows, no attempt is accepted and no connection is made |
| AttemptProperties.StoreQueryMatchesIntended | baruwa/lib/auth/smtpauth.py:65-82 | with at least one alias row, the query as written and the intended selection give identical attempts |
| Scenarios.TypedReachesSession | baruwa/lib/auth/smtpauth.py:60-82 | a well-formed `user@domain` login with a row for the domain reaches the session with that row |
| Scenarios.DirectDomainOverStartTls | baruwa/lib/auth/smtpauth.py:84-110 | a login at the row's own domain is accepted as typed; trace is open, EHLO, STARTTLS, EHLO, LOGIN with the typed login, QUIT |
| Scenarios.DirectDomainRefused | baruwa/lib/auth/smtpauth.py:105-119 | the same attempt with LOGIN refused is denied after the same commands, QUIT included |
| Scenarios.ImplicitTlsSkipsStartTls | baruwa/lib/auth/smtpauth.py:98-110 | on port 465 the connection is implicit TLS and STARTTLS is not sent although advertised |
| Scenarios.AliasWithTemplate | baruwa/lib/auth/smtpauth.py:87-110 | a login at an alias with a template sends the filled template and reports and stores the canonical address |
| Scenarios.AliasWithSplitAddress | baruwa/lib/auth/smtpauth.py:84-110 | a login at an alias of a split-address domain sends the bare username and reports the canonical address |
| Scenarios.CorpTemplateFilled | baruwa/lib/auth/smtpauth.py:92-96 | `%u@corp.com` is effective and fills to `jane@corp.com` for jane |

## Left out

- Network, TLS and sockets are not modelled. The server is a script that
  fixes each step's outcome, and the timeout of 5 is recorded in the trace.
  smtplib's own behaviour is not modelled:
  - parsing `host:port` in the address;
  - a port of 0 meaning the default;
  - replies to EHLO or STARTTLS that are error codes rather than exceptions.

  A scripted step failure stands for an exception raised at that step.
  smtplib's `starttls()` returns without raising on a non-220 reply. In that
  case the code goes on to send EHLO and LOGIN with the password over the
  connection that was never upgraded. The model cannot express this: a
  STARTTLS step either succeeds and upgrades, or raises.
- The failed-login check (`check_failed_logins`) and the WSGI environment are
  modelled only through the boolean lockout verdict it returns.
- The database session, the ORM models and the `func._` wrapper around the
  alias condition are not modelled. The query is a function from the typed
  domain to its rows, and `Endpoint` models what it selects over in-memory
  tables.
- The order of the query's rows is not modelled. The query has no ORDER BY;
  the model fixes server-major order.
- Database errors are not modelled. `NoResultFound` is in the handler's
  tuple but `.all()` does not raise it, so only `IndexError` on an empty
  result is produced.
- NULL columns are mapped to plain values:
  - a NULL template is the empty template (both are false in the template
    test);
  - a NULL port is `None`.
- UTF-8 encoding of login and password is not modelled. Strings are
  sequences of characters, and the Python 2 byte/unicode distinction is
  ignored.
- The template markers are not regular expressions here.
  `USER_TEMPLATE_MAP_RE` and `DOM_TEMPLATE_MAP_RE` (baruwa/lib/regex.py is
  not part of this model) are modelled as non-empty literal markers.
  `re.sub`'s processing of backslash escapes in the replacement is not
  modelled.
- `make_smtp_authenticator` is not modelled. It only resolves dotted names
  and checks that parameters are present.
- AttemptProperties.RepeatedAttemptStable: requires the typed domain to be
  the row's domain or the template to be ineffective. An effective
  template's domain marker is filled with the typed domain, which the first
  attempt rewrote, so a repeat through an alias sends different credentials.
- Strings.ReplaceAll: carries no contract of its own. Its meaning is stated by
  `Strings.ReplaceAllIsJoinSplit` and `Strings.ReplaceAllAbsent`, because Dafny
  unfolds the function eagerly on literal strings, and a contract on it makes
  the literal template example `Scenarios.CorpTemplateFilled` too expensive
  to prove.
- Exceptions outside the handler's tuple other than `ValueError` (such as
  interpreter errors) are collapsed into one `OtherError`.

## Findings

| source | as written | input that shows it | evidently intended | confidence | as-written member | corrected member |
|---|---|---|---|---|---|---|
| baruwa/lib/auth/smtpauth.py:65-80 | the alias table is referenced only in the WHERE clause, so it joins the FROM list as a cross product; with no alias rows at all the product is empty | domain `example.com` active, an enabled protocol-3 server configured on it, alias table empty; login `bob@example.com` gets no row, so it is denied without connecting | a row whenever the domain's name matches or an active alias of it matches (the alias condition as an existence test) | not executed | Endpoint.EmptyAliasTableHidesDirectMatch | Endpoint.EndpointRowsMembers |

`AttemptProperties.EmptyAliasTableDeniesEveryone` lifts the as-written
behaviour to whole attempts: nobody is accepted. The corrected selection
is `Endpoint.EndpointRows`, plugged into the plugin as
`AttemptProperties.IntendedQuery`. With at least one alias row, it leads to
the same attempts as the query as written
(`AttemptProperties.StoreQueryMatchesIntended`).
