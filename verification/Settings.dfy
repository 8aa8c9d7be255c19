/** Tunables the modelled machines read, in milliseconds unless named otherwise. */
module Settings {
  // src/settings.ts
  const WEBSOCKET_HANDSHAKE_TIMEOUT_MS: int := 15_000
  const WEBSOCKET_RECONNECT_BASE_MS: nat := 5_000
  const WEBSOCKET_RECONNECT_MAX_MS: nat := 300_000
  const WEBSOCKET_MAX_FAILURES: nat := 5
  const WEBSOCKET_RECOVERY_INTERVAL_MS: int := 900_000
  const WEBSOCKET_REFRESH_INTERVAL_MS: int := 210_000
  const WEBSOCKET_REFRESH_JITTER_MS: int := 30_000
  const MAX_LOGIN_FLOOR_WAIT_MS: int := 5_000
  const PARTITION_TARGET_SETTLE_MS: int := 90_000
  const PARTITION_COMMAND_DEADLINE_MS: int := 9_000
  // src/api/session-manager.ts
  const KEEPALIVE_FAILURE_LIMIT: nat := 3
  const FAILED_LOGIN_FLOOR_MS: int := 3_000
  // src/diagnostics/collector.ts
  const LATENCY_WINDOW: nat := 200
  const OUTCOME_WINDOW: nat := 50
  const API_ERROR_MIN_SAMPLES: nat := 10
}
