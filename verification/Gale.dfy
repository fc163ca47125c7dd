/** Shared vocabulary of the copier, and the stage table of `domain/gale.py`. */
module Gale {

  datatype Option<+T> = None | Some(value: T)

  datatype Stage = Initial | Gale1 | Gale2

  datatype Direction = Up | Down

  /** The fields of `config.py` that the cascade reads; times are seconds, money is `real`. */
  datatype RawConfig = RawConfig(
    amountInitial: real,
    amountGale1: real,
    amountGale2: real,
    expirationSeconds: int,
    skewTolerance: real,
    dailyLossLimit: real,
    dailyTradeLimit: int,
    dailyDrawdownPct: int,
    startOfDayBalance: Option<real>,  // a broker attribute; None when the broker has none
    utcOffset: int                    // fixed-offset zone
  )

  /** The bounds enforced by the configuration's field validators. */
  predicate ValidConfig(c: RawConfig) {
    && c.amountInitial > 0.0 && c.amountGale1 > 0.0 && c.amountGale2 > 0.0
    && c.expirationSeconds > 0
    && c.skewTolerance >= 0.0
    && c.dailyLossLimit >= 0.0 && c.dailyTradeLimit >= 0 && 0 <= c.dailyDrawdownPct <= 100
  }

  type Config = c: RawConfig | ValidConfig(c)
    witness RawConfig(2.0, 4.0, 8.0, 300, 2.0, 0.0, 0, 0, None, -10800)

  function AmountForStage(stage: Stage, cfg: Config): real {
    match stage
    case Initial => cfg.amountInitial
    case Gale1 => cfg.amountGale1
    case Gale2 => cfg.amountGale2
  }

  /** Position of a stage in the cascade. */
  function Index(stage: Stage): nat {
    match stage
    case Initial => 0
    case Gale1 => 1
    case Gale2 => 2
  }

  function StageAt(k: nat): Stage
    requires k < 3
  {
    if k == 0 then Initial else if k == 1 then Gale1 else Gale2
  }

  function TotalStake(cfg: Config): real {
    cfg.amountInitial + cfg.amountGale1 + cfg.amountGale2
  }

  function ComputeGaleTriggers(triggerInitial: real, expirationSeconds: int): (real, real) {
    (triggerInitial + expirationSeconds as real, triggerInitial + 2.0 * expirationSeconds as real)
  }
}
