/** newservice/service/apps.py: `ServiceConfig._validate_email_settings`, the
    start-up check that an SMTP e-mail backend has its settings. */
module Apps {
  import opened Wrappers
  import Text
  import Seqs

  /** _REQUIRED_SMTP_VARS, in declared order. */
  const REQUIRED_SMTP_VARS: seq<string> := ["EMAIL_HOST", "EMAIL_PORT", "EMAIL_HOST_USER", "EMAIL_HOST_PASSWORD"]

  /** A settings value, with Python's truthiness. */
  datatype Setting = StrSetting(s: string) | IntSetting(i: int) | BoolSetting(b: bool) | NoneSetting

  predicate Truthy(v: Setting) {
    match v
    case StrSetting(s) => s != ""
    case IntSetting(i) => i != 0
    case BoolSetting(b) => b
    case NoneSetting => false
  }

  /** `getattr(settings, name, None)` is truthy. */
  predicate IsSet(settings: map<string, Setting>, name: string) {
    name in settings && Truthy(settings[name])
  }

  /** The `missing` comprehension. */
  function MissingVars(vars: seq<string>, settings: map<string, Setting>): (missing: seq<string>)
    ensures forall i :: 0 <= i < |vars| ==> (vars[i] in missing <==> !IsSet(settings, vars[i]))
    ensures forall i :: 0 <= i < |missing| ==> missing[i] in vars && !IsSet(settings, missing[i])
    ensures Seqs.SubsequenceOf(missing, vars)
  {
    Seqs.Keep(vars, name => !IsSet(settings, name))
  }

  /** How the check ends when it does not raise. */
  datatype SmtpCheck = SkippedNotSmtp | MissingWarned(missing: seq<string>) | Complete

  function IncompleteMessage(missing: seq<string>): string {
    "Configuração SMTP incompleta. Variáveis em falta: " + Text.Join(missing, ", ") +
    ". Defina-as no ambiente ou use o backend de consola em desenvolvimento."
  }

  predicate IsSmtpBackend(backend: Option<string>) {
    Text.Contains(Text.Lower(backend.GetOr("")), "smtp")
  }

  /** `_validate_email_settings()`: Failure(m) is the RuntimeError it raises.
      `backend` is `settings.EMAIL_BACKEND` when present. */
  function ValidateEmailSettings(backend: Option<string>, settings: map<string, Setting>, debug: bool): (r: Result<SmtpCheck, string>)
    ensures !IsSmtpBackend(backend) ==> r == Success(SkippedNotSmtp)
    ensures r.Failure? <==> IsSmtpBackend(backend) && MissingVars(REQUIRED_SMTP_VARS, settings) != [] && !debug
    ensures r.Failure? ==> r.error == IncompleteMessage(MissingVars(REQUIRED_SMTP_VARS, settings))
    ensures IsSmtpBackend(backend) && debug && MissingVars(REQUIRED_SMTP_VARS, settings) != [] ==>
      r == Success(MissingWarned(MissingVars(REQUIRED_SMTP_VARS, settings)))
    ensures IsSmtpBackend(backend) && MissingVars(REQUIRED_SMTP_VARS, settings) == [] ==> r == Success(Complete)
  {
    if !IsSmtpBackend(backend) then Success(SkippedNotSmtp)
    else
      var missing := MissingVars(REQUIRED_SMTP_VARS, settings);
      if missing == [] then Success(Complete)
      else if debug then Success(MissingWarned(missing))
      else Failure(IncompleteMessage(missing))
  }

  /** The RuntimeError names every missing variable. */
  lemma IncompleteMessageNamesMissing(missing: seq<string>, i: nat)
    requires i < |missing|
    ensures Text.Contains(IncompleteMessage(missing), missing[i])
  {
    var prefix := "Configuração SMTP incompleta. Variáveis em falta: ";
    var suffix := ". Defina-as no ambiente ou use o backend de consola em desenvolvimento.";
    Text.JoinContainsEach(missing, ", ", i);
    Text.ContainsInPrefix(Text.Join(missing, ", "), suffix, missing[i]);
    Text.ContainsInSuffix(prefix, Text.Join(missing, ", ") + suffix, missing[i]);
    assert IncompleteMessage(missing) == prefix + (Text.Join(missing, ", ") + suffix);
  }
}
