/** newservice/service/supabase_client.py: how the outcome of a role query
    (`get_user_role`) or of an auth-admin user lookup (`get_user_email`) is
    turned into a role, an e-mail address, a DEBUG fallback or an error.
    The queries themselves run against the hosted backend; their outcomes are
    parameters. */
module SupabaseAuth {
  import opened Wrappers
  import Text

  /** Roles: 0 career office, 1 company, 2 student. */
  const VALID_ROLES: set<int> := {0, 1, 2}

  /** The exceptions executing the role query can raise. */
  datatype QueryException =
    | PostgrestApiError(message: string)
    | RequestFailure(message: string)
    | RequestTimeout(message: string)
    | OtherException(message: string)

  /** The selected `tipo` column of the `utilizador` row. */
  datatype RoleRow = RoleRow(tipo: Option<int>)

  /** `maybe_single().execute()`: a response (None when no row matched) or an exception. */
  datatype RoleQuery = Executed(response: Option<RoleRow>) | Raised(exception: QueryException)

  /** The exceptions `get_user_role` lets out. */
  datatype RoleError =
    | UserNotFound(userId: string)
    | InvalidUserRole(role: Option<int>)
    | ConnectionFailure(reason: string)
    | Unhandled(exception: QueryException)

  function RoleErrorMessage(e: RoleError): string {
    match e
    case UserNotFound(u) => "Usuário " + u + " não existe"
    case InvalidUserRole(role) => "Role inválida: " + (if role.None? then "None" else Text.IntToString(role.value))
    case ConnectionFailure(reason) => "Falha ao conectar com Supabase: " + reason
    case Unhandled(x) => x.message
  }

  /** UserNotFoundError names the user; ConnectionError carries the network error's text. */
  lemma RoleErrorMessagesNameTheCause(userId: string, reason: string)
    ensures Text.Contains(RoleErrorMessage(UserNotFound(userId)), userId)
    ensures Text.Contains(RoleErrorMessage(ConnectionFailure(reason)), reason)
  {
    Text.ContainsMiddle("Usuário ", userId, " não existe");
    Text.ContainsMiddle("Falha ao conectar com Supabase: ", reason, "");
    assert "Falha ao conectar com Supabase: " + reason + "" == "Falha ao conectar com Supabase: " + reason;
  }

  /** `get_user_role(user_id)`, given the outcome of the role query for `userId`. */
  function GetUserRole(userId: string, query: RoleQuery): (r: Result<int, RoleError>)
    ensures r.Success? ==> r.value in VALID_ROLES
    ensures r.Success? <==>
      query.Executed? && query.response.Some? && query.response.value.tipo.Some? &&
      query.response.value.tipo.value in VALID_ROLES
    ensures r.Success? ==> query.response.value.tipo == Some(r.value)
    ensures query.Executed? && query.response.Some? &&
            (query.response.value.tipo.None? || query.response.value.tipo.value !in VALID_ROLES) ==>
      r == Failure(InvalidUserRole(query.response.value.tipo))
    ensures query == Executed(None) ==> r == Failure(UserNotFound(userId))
    ensures query.Raised? && query.exception.PostgrestApiError? ==> r == Failure(UserNotFound(userId))
    ensures query.Raised? && (query.exception.RequestFailure? || query.exception.RequestTimeout?) ==>
      r == Failure(ConnectionFailure(query.exception.message))
    ensures query.Raised? && query.exception.OtherException? ==> r == Failure(Unhandled(query.exception))
  {
    match query
    case Raised(x) =>
      (match x
       case PostgrestApiError(_) => Failure(UserNotFound(userId))
       case RequestFailure(m) => Failure(ConnectionFailure(m))
       case RequestTimeout(m) => Failure(ConnectionFailure(m))
       case OtherException(_) => Failure(Unhandled(x)))
    case Executed(response) =>
      match response
      case None => Failure(UserNotFound(userId))
      case Some(row) =>
        if row.tipo.Some? && row.tipo.value in VALID_ROLES then Success(row.tipo.value)
        else Failure(InvalidUserRole(row.tipo))
  }

  const MISSING_CONFIG := "SUPABASE_URL e SUPABASE_SERVICE_KEY não estão configurados"

  /** The auth user object and the admin API response (None when it returned nothing). */
  datatype AuthUser = AuthUser(email: Option<string>)
  datatype AuthResponse = NoResponse | Response(user: Option<AuthUser>)

  /** SUPABASE_URL, SUPABASE_SERVICE_KEY, settings.DEBUG and the
      DEBUG_FALLBACK_EMAIL environment variable. */
  datatype EmailEnv = EmailEnv(supabaseUrl: Option<string>, serviceKey: Option<string>,
                               debug: bool, fallbackEmail: Option<string>)

  predicate Configured(env: EmailEnv) {
    env.supabaseUrl.Some? && env.supabaseUrl.value != "" &&
    env.serviceKey.Some? && env.serviceKey.value != ""
  }

  /** `response.user.email` when response, user and email are all truthy. */
  function EmailOf(response: AuthResponse): (e: Option<string>)
    ensures e.Some? ==> e.value != "" && response.Response? && response.user == Some(AuthUser(e))
    ensures e.None? ==> response.NoResponse? || response.user.None? ||
                        response.user.value.email.None? || response.user.value.email.value == ""
  {
    match response
    case NoResponse => None
    case Response(user) =>
      if user.Some? && user.value.email.Some? && user.value.email.value != "" then user.value.email else None
  }

  /** `os.getenv("DEBUG_FALLBACK_EMAIL", f"estudante+{user_uuid[:8]}@teste.local")` */
  function FallbackEmail(env: EmailEnv, userUuid: string): (e: string)
    ensures env.fallbackEmail.Some? ==> e == env.fallbackEmail.value
    ensures env.fallbackEmail.None? ==>
      Text.IsPrefix("estudante+", e) && Text.EndsWith(e, "@teste.local") &&
      22 <= |e| <= 30 && e[10..|e| - 12] == Text.Take(userUuid, 8)
  {
    match env.fallbackEmail
    case Some(v) => v
    case None => "estudante+" + Text.Take(userUuid, 8) + "@teste.local"
  }

  function NotFoundMessage(userUuid: string, reason: string): string {
    "Email não encontrado para o utilizador " + userUuid + ". Erro: " + reason
  }

  /** `get_user_email(user_uuid)`. `call` is the outcome of creating the admin
      client and calling `get_user_by_id` (Failure(str(e)) when either raised);
      it is consulted only when the configuration is present. Failure(m) is the
      ValueError the function raises; Success(None) is its fall-through. */
  function GetUserEmail(userUuid: string, env: EmailEnv, call: Result<AuthResponse, string>): (r: Result<Option<string>, string>)
    ensures Configured(env) && call.Success? ==> r == Success(EmailOf(call.value))
    ensures (!Configured(env) || call.Failure?) && env.debug ==> r == Success(Some(FallbackEmail(env, userUuid)))
    ensures !Configured(env) && !env.debug ==> r == Failure(NotFoundMessage(userUuid, MISSING_CONFIG))
    ensures Configured(env) && call.Failure? && !env.debug ==> r == Failure(NotFoundMessage(userUuid, call.error))
    ensures r.Failure? ==> !env.debug
    ensures r == Success(None) <==> Configured(env) && call.Success? && EmailOf(call.value).None?
  {
    var raised: Option<string> :=
      if !Configured(env) then Some(MISSING_CONFIG)
      else if call.Failure? then Some(call.error)
      else None;
    match raised
    case Some(reason) =>
      if env.debug then Success(Some(FallbackEmail(env, userUuid)))
      else Failure(NotFoundMessage(userUuid, reason))
    case None => Success(EmailOf(call.value))
  }
}
