/** Configuration constants of the monitor (client/js/config.js) and of the
    acquisition server (server/server.js). */
module Config {
  /** Rows kept in the history table and points kept in each chart series. */
  const HISTORY_ROWS: nat := 20

  /** Alarm band around the standard value, in volts or amperes. */
  const ALARM_TOLERANCE: real := 0.5

  /** Rows kept in the recent-alarm list (a literal in client/js/ui.js). */
  const RECENT_ALARMS: nat := 5

  /** Largest batch that the chart treats as one live sample (client/js/charts.js). */
  const LIVE_BATCH_MAX: nat := 6

  /** Delay between two reads of the register block, in milliseconds. */
  const POLLING_RATE: nat := 60000

  /** Delay before a failed connection is retried, in milliseconds. */
  const RETRY_DELAY: nat := 5000

  /** Holding registers read per poll, and the address of the first one. */
  const BLOCK_LENGTH: nat := 41
  const BLOCK_ADDRESS: nat := 2000

  /** Number of channels per measured quantity. */
  const CHANNELS: nat := 6
}
