/**
 * src/network-constants.ts: the per-environment defaults that `configure` substitutes into
 * the approval program's template variables.
 */
module Networks {
  import opened Types

  /** One week in seconds. */
  const WEEKS_1: nat := 86400 * 7

  /** The fixed-point scale of a pool's exchange rate (1e10). */
  const RATE_PRECISION: nat := 10_000_000_000

  /** 65 million ALGO, in microAlgos: minting stops above this escrow balance. */
  const MAX_BALANCE: nat := 65_000_000 * 1_000_000

  const ProdConstants: NetworkConstants :=
    NetworkConstants(MAX_BALANCE, WEEKS_1, WEEKS_1, 250, RATE_PRECISION, 1002541853, 2449590623)

  const DevConstants: NetworkConstants :=
    NetworkConstants(MAX_BALANCE, 3600, 86400, 250, RATE_PRECISION, 1, 1)

  /** `networkConstants[env]`. */
  function Defaults(env: Environment): (r: NetworkConstants)
    ensures r.ratePrecision == 10_000_000_000 && r.feeUpdateMaxDelta == 250
    ensures r.maxBalance == 65_000_000_000_000
    ensures env == PROD ==> r.upgradePeriod == r.feeUpdatePeriod == 604800
    ensures env == DEV ==> r.upgradePeriod == 3600 && r.feeUpdatePeriod == 86400
    ensures env == PROD ==> r.tm2AppId == 1002541853 && r.arc59AppId == 2449590623
    ensures env == DEV ==> r.tm2AppId == 1 && r.arc59AppId == 1
    ensures env == DEV ==> r.upgradePeriod < r.feeUpdatePeriod < WEEKS_1
  {
    match env
    case DEV => DevConstants
    case PROD => ProdConstants
  }
}
