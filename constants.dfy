// Shared limits, defaults and DUE status sets, plus the error kinds the sync
// code raises and catches.
module Constants {

  // Siscomex API limits.
  const RateLimitHour: int := 1000
  const RateLimitBurst: int := 20
  const TokenValidityMin: int := 60
  const TokenSafetyMarginMin: int := 2
  const AuthIntervalSec: int := 60
  const SafeRequestLimit: int := 900

  // Supplementary DUE queries are switched on and off by these flags.
  datatype FetchFlags = FetchFlags(atosSuspensao: bool, atosIsencao: bool, exigenciasFiscais: bool)
  const DefaultFetchFlags: FetchFlags := FetchFlags(true, false, true)

  // Per-run processing limits.
  const MaxUpdatesPerRun: int := 500
  const HoursBeforeUpdate: int := 24
  const RecentSettlementDays: int := 7

  const SecondsPerHour: int := 3600
  const SecondsPerDay: int := 86400

  const Cancelled: set<string> := {
    "CANCELADA_POR_EXPIRACAO_DE_PRAZO",
    "CANCELADA_PELA_ADUANA_A_PEDIDO_DO_EXPORTADOR",
    "CANCELADA_PELO_EXPORTADOR",
    "CANCELADA_PELO_SISCOMEX"
  }

  const Settled: set<string> := {
    "AVERBADA_SEM_DIVERGENCIA",
    "AVERBADA_COM_DIVERGENCIA"
  }

  const Pending: set<string> := {
    "EM_CARGA",
    "DESEMBARACADA",
    "AGUARDANDO_AVERBACAO",
    "EM_ELABORACAO",
    "REGISTRADA",
    "PARAMETRIZADA_VERDE",
    "PARAMETRIZADA_AMARELO",
    "PARAMETRIZADA_VERMELHO",
    "INTERROMPIDA"
  }

  /** `RateLimitError(message, retry_after=3600)`. */
  const DefaultRetryAfter: int := 3600

  /** The exceptions of the sync layer that the model distinguishes. */
  datatype Failure =
    | RateLimit(retryAfter: int)
    | Authentication
    | Configuration
    | Other
}
