/** Application settings: the defaults and the two validated fields that have none. */
module Config {
  import opened Wrappers

  const AppName: string := "Clinified API"
  const Version: string := "1.0.0"
  const Algorithm: string := "HS256"
  const AccessTokenExpireMinutes: int := 30
  const RefreshTokenExpireDays: int := 7
  const DatabasePoolSize: int := 20
  const DatabaseMaxOverflow: int := 30
  const RedisUrl: string := "redis://localhost:6379"
  const UploadDir: string := "uploads"
  const MaxFileSize: int := 10 * 1024 * 1024
  const AllowedFileTypes: seq<string> :=
    ["image/jpeg", "image/png", "image/gif", "application/pdf", "text/plain"]
  const AbdmBaseUrl: string := "https://healthidsbx.abdm.gov.in"
  const SmtpPort: int := 587
  const MetricsPort: int := 9090
  const SyncBatchSize: int := 100
  const SyncRetryAttempts: int := 3
  const SyncRetryDelaySeconds: int := 5
  const SecretKeyMinLength: nat := 32
  const SecretKeyTooShort: string := "SECRET_KEY must be at least 32 characters long"
  const DatabaseUrlRequired: string := "DATABASE_URL is required"

  /** The settings the application reads. */
  datatype Settings = Settings(
    appName: string,
    version: string,
    debug: bool,
    secretKey: string,
    algorithm: string,
    accessTokenExpireMinutes: int,
    refreshTokenExpireDays: int,
    databaseUrl: string,
    databasePoolSize: int,
    databaseMaxOverflow: int,
    redisUrl: string,
    allowedOrigins: seq<string>,
    allowedHosts: seq<string>,
    uploadDir: string,
    maxFileSize: int,
    allowedFileTypes: seq<string>,
    abdmBaseUrl: string,
    smtpPort: int,
    smtpTls: bool,
    logLevel: string,
    logFormat: string,
    enableMetrics: bool,
    metricsPort: int,
    syncBatchSize: int,
    syncRetryAttempts: int,
    syncRetryDelay: int)

  /** `validate_secret_key`: rejected iff shorter than 32 characters, else kept as it is. */
  function ValidateSecretKey(v: string): (r: Result<string, string>)
    ensures r.Err? <==> |v| < SecretKeyMinLength
    ensures r.Ok? ==> r.value == v
    ensures r.Err? ==> r.error == SecretKeyTooShort
  {
    if |v| < 32 then Err(SecretKeyTooShort) else Ok(v)
  }

  /** `validate_database_url`: rejected iff empty, else kept as it is. */
  function ValidateDatabaseUrl(v: string): (r: Result<string, string>)
    ensures r.Err? <==> |v| == 0
    ensures r.Ok? ==> r.value == v
    ensures r.Err? ==> r.error == DatabaseUrlRequired
  {
    if v == "" then Err(DatabaseUrlRequired) else Ok(v)
  }

  /** Building `Settings` from the two required values, every other field at
      its default: accepted exactly when both validators accept, each failure
      reported in field order. */
  function LoadSettings(secretKey: string, databaseUrl: string): (r: Result<Settings, seq<FieldError>>)
    ensures r.Ok? <==> |secretKey| >= SecretKeyMinLength && databaseUrl != ""
    ensures r.Ok? ==>
      && r.value.secretKey == secretKey && r.value.databaseUrl == databaseUrl
      && r.value.accessTokenExpireMinutes == 30 && r.value.refreshTokenExpireDays == 7
      && r.value.maxFileSize == 10485760
      && r.value.syncBatchSize == 100 && r.value.syncRetryAttempts == 3 && r.value.syncRetryDelay == 5
      && r.value.algorithm == "HS256" && !r.value.debug
    ensures r.Err? ==>
      && (FieldError("SECRET_KEY", SecretKeyTooShort) in r.error <==> |secretKey| < SecretKeyMinLength)
      && (FieldError("DATABASE_URL", DatabaseUrlRequired) in r.error <==> databaseUrl == "")
      && 1 <= |r.error| <= 2
  {
    var key := ValidateSecretKey(secretKey);
    var url := ValidateDatabaseUrl(databaseUrl);
    var errors := (if key.Err? then [FieldError("SECRET_KEY", key.error)] else [])
                  + (if url.Err? then [FieldError("DATABASE_URL", url.error)] else []);
    if errors == [] then
      Ok(Settings(AppName, Version, false, secretKey, Algorithm, AccessTokenExpireMinutes,
                  RefreshTokenExpireDays, databaseUrl, DatabasePoolSize, DatabaseMaxOverflow,
                  RedisUrl, ["*"], ["*"], UploadDir, MaxFileSize, AllowedFileTypes, AbdmBaseUrl,
                  SmtpPort, true, "INFO", "json", true, MetricsPort, SyncBatchSize,
                  SyncRetryAttempts, SyncRetryDelaySeconds))
    else Err(errors)
  }
}
