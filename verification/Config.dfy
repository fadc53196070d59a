/** app/config.py: the settings the modelled components read. */
module Config {
  import opened Database

  datatype SettingsFields = SettingsFields(
    paymentEnabled: bool, paymentKillSwitch: bool, publishReward: int, queryPrice: int,
    startingGrant: int, invoiceTtlSeconds: int, requireSignedPublish: bool,
    royaltyEnabled: bool, listingFeeRatio: real, escrowHorizonDays: int, refundPoolFee: int)

  const DEFAULT_SETTINGS: SettingsFields :=
    SettingsFields(false, false, 1, 1, 100, 300, false, false, 0.2, 14, 0)

  /** What `__post_init__` lets through. */
  type Settings = s: SettingsFields | s.publishReward >= 1 && s.queryPrice >= 1 witness DEFAULT_SETTINGS

  const TREASURY: Agent := "oldman"
  const VILLAGE_POOL: Agent := "village_pool"
}
