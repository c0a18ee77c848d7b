/**
 * The GraphQL client set-up (src/core/apolloClient/init.ts): the request
 * link that decorates every outgoing operation, the error link that decides
 * per GraphQL error whether to log out, report or stay silent, and the
 * module-level client singleton.
 */
module ApolloInit {
  import opened Wrappers
  import opened ErrorUtils
  import opened Toasts
  import opened Strings

  /** `AUTH_ERRORS`: the codes that end the session. */
  const AuthErrors: seq<string> := [Code(ExpiredJwtToken), Code(TokenEncodingError), Code(Unauthorized)]

  /** What the error link appends to every operation's silent codes: the auth codes, then Forbidden. */
  const AlwaysSilent: seq<string> := AuthErrors + [Code(Forbidden)]

  /** The translation key of the generic failure toast. */
  const GenericErrorKey: string := "text_622f7a3dc32ce100c46a5154"

  /** The message of the transport's persisted-query miss, never reported. */
  const PersistedQueryNotFound: string := "PersistedQueryNotFound"

  // ------------------------------------------------------------ request link

  /** A JSON value of the operation's variables. */
  datatype Value =
    | Null
    | Bool(b: bool)
    | Num(n: int)
    | Str(s: string)
    | Arr(items: seq<Value>)
    | Obj(fields: map<string, Value>)

  type Variables = map<string, Value>

  /** JavaScript truthiness of a variable. */
  predicate Truthy(v: Value) {
    match v
    case Null => false
    case Bool(b) => b
    case Num(n) => n != 0
    case Str(s) => s != ""
    case Arr(_) => true
    case Obj(_) => true
  }

  /** Header values: `None` is a JavaScript `null`/`undefined` value. */
  type Headers = map<string, Option<string>>

  const AuthorizationHeader: string := "authorization"
  const PortalTokenHeader: string := "customer-portal-token"
  const OrganizationHeader: string := "x-lago-organization"

  /**
   * The headers `initialLink` sets: the incoming ones, overridden by the
   * bearer token and the portal token when those are stored, and always by
   * the organization id as stored (even when that is null or empty).
   */
  function OutgoingHeaders(incoming: Headers, token: Option<string>, portalToken: Option<string>, organizationId: Option<string>): (h: Headers)
    ensures OrganizationHeader in h && h[OrganizationHeader] == organizationId
    ensures IsTruthyText(token) ==> AuthorizationHeader in h && h[AuthorizationHeader] == Some("Bearer " + token.value)
    ensures !IsTruthyText(token) ==> (AuthorizationHeader in h <==> AuthorizationHeader in incoming)
                                     && (AuthorizationHeader in h ==> h[AuthorizationHeader] == incoming[AuthorizationHeader])
    ensures IsTruthyText(portalToken) ==> PortalTokenHeader in h && h[PortalTokenHeader] == portalToken
    ensures !IsTruthyText(portalToken) ==> (PortalTokenHeader in h <==> PortalTokenHeader in incoming)
                                           && (PortalTokenHeader in h ==> h[PortalTokenHeader] == incoming[PortalTokenHeader])
    ensures forall k :: k in incoming && k != AuthorizationHeader && k != PortalTokenHeader && k != OrganizationHeader
                        ==> k in h && h[k] == incoming[k]
    ensures forall k :: k in h ==> k in incoming || k == AuthorizationHeader || k == PortalTokenHeader || k == OrganizationHeader
  {
    incoming
    + (if IsTruthyText(token) then map[AuthorizationHeader := Some("Bearer " + token.value)] else map[])
    + (if IsTruthyText(portalToken) then map[PortalTokenHeader := portalToken] else map[])
    + map[OrganizationHeader := organizationId]
  }

  /**
   * The variables sent: `omitTypename` (the recursive removal of
   * `__typename`, not modelled) is applied unless there are no variables or
   * a truthy `file` variable marks an upload.
   */
  function SentVariables(variables: Option<Variables>, omitTypename: Variables -> Variables): (r: Option<Variables>)
    ensures variables.None? ==> r.None?
    ensures variables.Some? && "file" in variables.value && Truthy(variables.value["file"]) ==> r == variables
    ensures variables.Some? && !("file" in variables.value && Truthy(variables.value["file"]))
            ==> r == Some(omitTypename(variables.value))
  {
    match variables
    case None => None
    case Some(vars) =>
      if "file" in vars && Truthy(vars["file"]) then variables else Some(omitTypename(vars))
  }

  /** The array of silent codes a caller passes in its context; the error link appends to it in place. */
  class CodeList {
    var codes: seq<string>

    constructor (codes: seq<string>)
      ensures this.codes == codes
    {
      this.codes := codes;
    }
  }

  /** An operation as the links see it: its variables and its context. */
  class Operation {
    const operationName: string
    var variables: Option<Variables>
    var headers: Headers
    /** `context.silentError`, false when the caller sets none. */
    var silentError: bool
    /** `context.silentErrorCodes`, null when the caller sets none. */
    var silentErrorCodes: CodeList?

    constructor (operationName: string, variables: Option<Variables>, headers: Headers, silentError: bool, silentErrorCodes: CodeList?)
      ensures this.operationName == operationName && this.variables == variables && this.headers == headers
      ensures this.silentError == silentError && this.silentErrorCodes == silentErrorCodes
    {
      this.operationName := operationName;
      this.variables := variables;
      this.headers := headers;
      this.silentError := silentError;
      this.silentErrorCodes := silentErrorCodes;
    }
  }

  /**
   * `initialLink`: the three local-storage reads are the parameters
   * `token`, `portalToken` and `organizationId`; forwarding is not modelled.
   */
  method ApplyInitialLink(op: Operation, token: Option<string>, portalToken: Option<string>, organizationId: Option<string>,
                          omitTypename: Variables -> Variables)
    modifies op
    ensures op.variables == SentVariables(old(op.variables), omitTypename)
    ensures op.headers == OutgoingHeaders(old(op.headers), token, portalToken, organizationId)
    ensures op.silentError == old(op.silentError) && op.silentErrorCodes == old(op.silentErrorCodes)
  {
    if op.variables.Some? && !("file" in op.variables.value && Truthy(op.variables.value["file"])) {
      op.variables := Some(omitTypename(op.variables.value));
    }
    op.headers := OutgoingHeaders(op.headers, token, portalToken, organizationId);
  }

  // -------------------------------------------------------------- error link

  /** What the error link does, in order. */
  datatype LinkEffect =
    | LogOut
    | Capture(message: string, operationName: string, error: GqlError)
    | ShowToast(toast: Toast)
    | Warn(message: string, path: seq<string>, locations: seq<Location>)

  predicate IsAuthError(e: GqlError) {
    e.extensions.Some? && e.extensions.value.code.Some? && e.extensions.value.code.value in AuthErrors
  }

  /** The reporting rule: not silenced by the caller, nor by code, not an auth error, not a persisted-query miss. */
  predicate IsReported(silentError: bool, silentCodes: seq<string>, e: GqlError) {
    && !silentError
    && !(e.extensions.Some? && e.extensions.value.code.Some? && e.extensions.value.code.value in silentCodes)
    && !IsAuthError(e)
    && e.message != PersistedQueryNotFound
  }

  /** The effects of one GraphQL error. */
  function ErrorEffects(silentError: bool, silentCodes: seq<string>, hasClient: bool, operationName: string, e: GqlError): seq<LinkEffect> {
    LogOutEffects(hasClient, e) + ReportEffects(silentError, silentCodes, operationName, e) + [Warn(e.message, e.path, e.locations)]
  }

  /** `logOut` when the error is an auth error and a client exists. */
  function LogOutEffects(hasClient: bool, e: GqlError): seq<LinkEffect> {
    if IsAuthError(e) && hasClient then [LogOut] else []
  }

  /** The Sentry capture and the generic toast of a reported error. */
  function ReportEffects(silentError: bool, silentCodes: seq<string>, operationName: string, e: GqlError): seq<LinkEffect> {
    if IsReported(silentError, silentCodes, e)
    then [Capture(e.message, operationName, e), ShowToast(Toast(Danger, TranslateKey(GenericErrorKey)))]
    else []
  }

  /** The effects of a batch of errors, error after error. */
  function BatchEffects(silentError: bool, silentCodes: seq<string>, hasClient: bool, operationName: string, errs: seq<GqlError>): seq<LinkEffect> {
    if errs == [] then []
    else BatchEffects(silentError, silentCodes, hasClient, operationName, errs[..|errs| - 1])
         + ErrorEffects(silentError, silentCodes, hasClient, operationName, errs[|errs| - 1])
  }

  lemma BatchEffectsStep(silentError: bool, silentCodes: seq<string>, hasClient: bool, name: string, errs: seq<GqlError>, i: nat)
    requires i < |errs|
    ensures BatchEffects(silentError, silentCodes, hasClient, name, errs[..i + 1])
            == BatchEffects(silentError, silentCodes, hasClient, name, errs[..i])
               + ErrorEffects(silentError, silentCodes, hasClient, name, errs[i])
  {
    assert errs[..i + 1][..i] == errs[..i];
  }

  /** Two batches handled in a row have the effects of their concatenation: each error acts on its own. */
  lemma {:induction false} BatchEffectsAppend(silentError: bool, silentCodes: seq<string>, hasClient: bool, name: string,
                                              a: seq<GqlError>, b: seq<GqlError>)
    ensures BatchEffects(silentError, silentCodes, hasClient, name, a + b)
            == BatchEffects(silentError, silentCodes, hasClient, name, a) + BatchEffects(silentError, silentCodes, hasClient, name, b)
  {
    if b == [] {
      assert a + b == a;
    } else {
      var init := b[..|b| - 1];
      BatchEffectsAppend(silentError, silentCodes, hasClient, name, a, init);
      assert (a + b)[..|a + b| - 1] == a + init;
      AppendAssoc(BatchEffects(silentError, silentCodes, hasClient, name, a),
                  BatchEffects(silentError, silentCodes, hasClient, name, init),
                  ErrorEffects(silentError, silentCodes, hasClient, name, b[|b| - 1]));
    }
  }

  /** An opaque client instance; building it (links, cache persistence) is not modelled. */
  class ApolloClient {
    constructor ()
    {
    }
  }

  /** The module's own state: the client singleton and the effects the links have fired so far. */
  class ClientModule {
    var globalApolloClient: ApolloClient?
    var effects: seq<LinkEffect>

    constructor ()
      ensures globalApolloClient == null && effects == []
    {
      globalApolloClient := null;
      effects := [];
    }

    /** `initializeApolloClient`: the existing client once one is assigned, otherwise a new one that becomes the singleton. */
    method InitializeApolloClient() returns (client: ApolloClient)
      modifies this`globalApolloClient
      ensures old(globalApolloClient) != null ==> client == old(globalApolloClient)
      ensures old(globalApolloClient) == null ==> fresh(client)
      ensures globalApolloClient == client
    {
      if globalApolloClient != null {
        return globalApolloClient;
      }
      client := new ApolloClient();
      globalApolloClient := client;
    }

    /** The body of the error link's `forEach`: the effects of one error, in source order. */
    method HandleGraphQLError(silentError: bool, silentCodes: seq<string>, hasClient: bool, name: string, e: GqlError)
      modifies this`effects
      ensures effects == old(effects) + ErrorEffects(silentError, silentCodes, hasClient, name, e)
    {
      var isUnauthorized := e.extensions.Some? && e.extensions.value.code.Some? && e.extensions.value.code.value in AuthErrors;
      if isUnauthorized && hasClient {
        effects := effects + [LogOut];
      }
      if !silentError
         && !(e.extensions.Some? && e.extensions.value.code.Some? && e.extensions.value.code.value in silentCodes)
         && !isUnauthorized
         && e.message != PersistedQueryNotFound
      {
        effects := effects + [Capture(e.message, name, e), ShowToast(Toast(Danger, TranslateKey(GenericErrorKey)))];
      }
      effects := effects + [Warn(e.message, e.path, e.locations)];
    }

    /**
     * The error link's handler. The caller's silent-code list (or a fresh
     * one) is extended with the always-silent codes first; then every error
     * in turn may log out, may be reported, and is always logged.
     */
    method OnError(op: Operation, graphQLErrors: Option<seq<GqlError>>)
      modifies this`effects, op.silentErrorCodes
      ensures op.silentErrorCodes != null ==> op.silentErrorCodes.codes == old(op.silentErrorCodes.codes) + AlwaysSilent
      ensures var silentCodes := (if op.silentErrorCodes == null then [] else old(op.silentErrorCodes.codes)) + AlwaysSilent;
              effects == old(effects) + (if graphQLErrors.None? then []
                                         else BatchEffects(op.silentError, silentCodes, globalApolloClient != null,
                                                           op.operationName, graphQLErrors.value))
    {
      var list: CodeList;
      if op.silentErrorCodes == null {
        list := new CodeList([]);
      } else {
        list := op.silentErrorCodes;
      }
      list.codes := list.codes + AlwaysSilent;

      if graphQLErrors.Some? {
        HandleGraphQLErrors(op.silentError, list.codes, globalApolloClient != null, op.operationName, graphQLErrors.value);
      }
    }

    /** The error link's `graphQLErrors.forEach`. */
    method HandleGraphQLErrors(silentError: bool, silentCodes: seq<string>, hasClient: bool, name: string, errs: seq<GqlError>)
      modifies this`effects
      ensures effects == old(effects) + BatchEffects(silentError, silentCodes, hasClient, name, errs)
    {
      var i := 0;
      while i < |errs|
        invariant 0 <= i <= |errs|
        invariant effects == old(effects) + BatchEffects(silentError, silentCodes, hasClient, name, errs[..i])
      {
        BatchEffectsStep(silentError, silentCodes, hasClient, name, errs, i);
        AppendAssoc(old(effects), BatchEffects(silentError, silentCodes, hasClient, name, errs[..i]),
                    ErrorEffects(silentError, silentCodes, hasClient, name, errs[i]));
        HandleGraphQLError(silentError, silentCodes, hasClient, name, errs[i]);
        i := i + 1;
      }
      assert errs[..|errs|] == errs;
    }
  }

  // -------------------------------------------------------------- properties

  function Count(es: seq<LinkEffect>, p: LinkEffect -> bool): nat {
    if es == [] then 0 else Count(es[..|es| - 1], p) + (if p(es[|es| - 1]) then 1 else 0)
  }

  lemma {:induction false} CountAppend(a: seq<LinkEffect>, b: seq<LinkEffect>, p: LinkEffect -> bool)
    ensures Count(a + b, p) == Count(a, p) + Count(b, p)
    decreases |b|
  {
    if b == [] {
      assert a + b == a;
    } else {
      assert (a + b)[..|a + b| - 1] == a + b[..|b| - 1];
      CountAppend(a, b[..|b| - 1], p);
    }
  }

  predicate IsLogOut(e: LinkEffect) { e.LogOut? }
  predicate IsCapture(e: LinkEffect) { e.Capture? }
  predicate IsToast(e: LinkEffect) { e.ShowToast? }
  predicate IsWarn(e: LinkEffect) { e.Warn? }

  function CountErrors(errs: seq<GqlError>, p: GqlError -> bool): nat {
    if errs == [] then 0 else CountErrors(errs[..|errs| - 1], p) + (if p(errs[|errs| - 1]) then 1 else 0)
  }

  /** How many errors of a batch the reporting rule lets through. */
  function CountReported(silentError: bool, silentCodes: seq<string>, errs: seq<GqlError>): nat {
    if errs == [] then 0
    else CountReported(silentError, silentCodes, errs[..|errs| - 1])
         + (if IsReported(silentError, silentCodes, errs[|errs| - 1]) then 1 else 0)
  }

  /** One error: at most one logout, a capture and a toast exactly when reported, and one log line. */
  lemma EffectsOfOneError(silentError: bool, silentCodes: seq<string>, hasClient: bool, name: string, e: GqlError)
    ensures var ee := ErrorEffects(silentError, silentCodes, hasClient, name, e);
            && Count(ee, IsLogOut) == (if IsAuthError(e) && hasClient then 1 else 0)
            && Count(ee, IsCapture) == (if IsReported(silentError, silentCodes, e) then 1 else 0)
            && Count(ee, IsToast) == (if IsReported(silentError, silentCodes, e) then 1 else 0)
            && Count(ee, IsWarn) == 1
  {
    CountErrorEffects(silentError, silentCodes, hasClient, name, e, IsLogOut);
    CountErrorEffects(silentError, silentCodes, hasClient, name, e, IsCapture);
    CountErrorEffects(silentError, silentCodes, hasClient, name, e, IsToast);
    CountErrorEffects(silentError, silentCodes, hasClient, name, e, IsWarn);
  }

  lemma CountErrorEffects(silentError: bool, silentCodes: seq<string>, hasClient: bool, name: string, e: GqlError,
                          p: LinkEffect -> bool)
    ensures Count(ErrorEffects(silentError, silentCodes, hasClient, name, e), p)
            == Count(LogOutEffects(hasClient, e), p) + Count(ReportEffects(silentError, silentCodes, name, e), p)
               + (if p(Warn(e.message, e.path, e.locations)) then 1 else 0)
    ensures Count(LogOutEffects(hasClient, e), p) == (if IsAuthError(e) && hasClient && p(LogOut) then 1 else 0)
    ensures var rep := ReportEffects(silentError, silentCodes, name, e);
            Count(rep, p) == if rep == [] then 0 else (if p(rep[0]) then 1 else 0) + (if p(rep[1]) then 1 else 0)
  {
    var lo := LogOutEffects(hasClient, e);
    var rep := ReportEffects(silentError, silentCodes, name, e);
    var w := [Warn(e.message, e.path, e.locations)];
    CountAppend(lo + rep, w, p);
    CountAppend(lo, rep, p);
    if rep != [] {
      assert rep[..1] == [rep[0]];
    }
  }

  /** Every error, whatever its class, is logged exactly once. */
  lemma {:induction false} OneWarningPerError(silentError: bool, silentCodes: seq<string>, hasClient: bool, name: string, errs: seq<GqlError>)
    ensures Count(BatchEffects(silentError, silentCodes, hasClient, name, errs), IsWarn) == |errs|
  {
    if errs != [] {
      var init := errs[..|errs| - 1];
      var e := errs[|errs| - 1];
      OneWarningPerError(silentError, silentCodes, hasClient, name, init);
      CountAppend(BatchEffects(silentError, silentCodes, hasClient, name, init),
                  ErrorEffects(silentError, silentCodes, hasClient, name, e), IsWarn);
      EffectsOfOneError(silentError, silentCodes, hasClient, name, e);
    }
  }

  /**
   * `logOut` runs once for every auth error while a client exists, and
   * never otherwise: it is not deduplicated within a batch.
   */
  lemma {:induction false} LogOutPerAuthError(silentError: bool, silentCodes: seq<string>, hasClient: bool, name: string, errs: seq<GqlError>)
    ensures Count(BatchEffects(silentError, silentCodes, hasClient, name, errs), IsLogOut)
            == (if hasClient then CountErrors(errs, IsAuthError) else 0)
  {
    if errs != [] {
      var init := errs[..|errs| - 1];
      var e := errs[|errs| - 1];
      LogOutPerAuthError(silentError, silentCodes, hasClient, name, init);
      CountAppend(BatchEffects(silentError, silentCodes, hasClient, name, init),
                  ErrorEffects(silentError, silentCodes, hasClient, name, e), IsLogOut);
      EffectsOfOneError(silentError, silentCodes, hasClient, name, e);
    }
  }

  /** Each reported error gives one capture and one generic toast; the others give neither. */
  lemma {:induction false} ReportsPerReportedError(silentError: bool, silentCodes: seq<string>, hasClient: bool, name: string, errs: seq<GqlError>)
    ensures Count(BatchEffects(silentError, silentCodes, hasClient, name, errs), IsCapture) == CountReported(silentError, silentCodes, errs)
    ensures Count(BatchEffects(silentError, silentCodes, hasClient, name, errs), IsToast) == CountReported(silentError, silentCodes, errs)
  {
    if errs != [] {
      var init := errs[..|errs| - 1];
      var e := errs[|errs| - 1];
      ReportsPerReportedError(silentError, silentCodes, hasClient, name, init);
      var prior := BatchEffects(silentError, silentCodes, hasClient, name, init);
      var ee := ErrorEffects(silentError, silentCodes, hasClient, name, e);
      CountAppend(prior, ee, IsCapture);
      CountAppend(prior, ee, IsToast);
      EffectsOfOneError(silentError, silentCodes, hasClient, name, e);
    }
  }

  /**
   * Once the always-silent codes are appended, auth and permission errors
   * are never reported, whatever the caller passed.
   */
  lemma AuthAndForbiddenNeverReported(silentError: bool, callerCodes: seq<string>, e: GqlError)
    requires e.extensions.Some? && e.extensions.value.code.Some?
    requires e.extensions.value.code.value in AlwaysSilent
    ensures !IsReported(silentError, callerCodes + AlwaysSilent, e)
  {
  }

  /** A caller's silent flag suppresses every report, and so every capture and generic toast. */
  lemma {:induction false} SilentErrorSuppressesReports(silentCodes: seq<string>, hasClient: bool, name: string, errs: seq<GqlError>)
    ensures Count(BatchEffects(true, silentCodes, hasClient, name, errs), IsCapture) == 0
    ensures Count(BatchEffects(true, silentCodes, hasClient, name, errs), IsToast) == 0
  {
    ReportsPerReportedError(true, silentCodes, hasClient, name, errs);
    NoneReported(silentCodes, errs);
  }

  lemma {:induction false} NoneReported(silentCodes: seq<string>, errs: seq<GqlError>)
    ensures CountReported(true, silentCodes, errs) == 0
  {
    if errs != [] {
      NoneReported(silentCodes, errs[..|errs| - 1]);
    }
  }

  /** An expired token with a client present: one logout, no report, one log line. */
  lemma ExpiredTokenScenario(name: string, m: string, p: seq<string>, l: seq<Location>, callerCodes: seq<string>)
    ensures var e := GqlError(m, p, l, Some(Extensions(Some(Code(ExpiredJwtToken)), None)));
            BatchEffects(false, callerCodes + AlwaysSilent, true, name, [e]) == [LogOut, Warn(m, p, l)]
  {
  }

  /** An unlisted code with no caller codes: one capture, one generic danger toast, one log line. */
  lemma UnlistedCodeScenario(name: string, p: seq<string>, l: seq<Location>)
    ensures var e := GqlError("boom", p, l, Some(Extensions(Some("SomeUnlisted"), None)));
            BatchEffects(false, [] + AlwaysSilent, true, name, [e])
            == [Capture("boom", name, e), ShowToast(Toast(Danger, TranslateKey(GenericErrorKey))), Warn("boom", p, l)]
  {
  }
}
