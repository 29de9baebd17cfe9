/** The token lifetimes the server is configured with (config/default.ts). */
module Config {

  /** Lifetime of an access token and of its cookie, in minutes. */
  const AccessTokenExpiresIn: nat := 60

  /** Lifetime of a refresh token and of its cookie, in minutes. */
  const RefreshTokenExpiresIn: nat := 60

  /** Milliseconds in a minute, as in `expiresIn * 60 * 1000`. */
  const MsPerMinute: nat := 60 * 1000
}
