/** `get_config` (lambda_handler.py:34-42): the configuration snapshot taken
    from the process environment on every invocation. */
module Configuration {
  import opened Text

  /** The process environment, `os.environ`. */
  type Env = map<string, string>

  datatype Config = Config(
    maintenanceMode: bool,
    s3Bucket: string,
    s3Key: string,
    specialUrlPath: string,
    specialLambdaArn: string)

  const DefaultMaintenanceMode := "true"
  const DefaultS3Bucket := "maintenance-pages"
  const DefaultS3Key := "maintenance.html"
  const DefaultSpecialUrlPath := "/special"
  const DefaultSpecialLambdaArn := ""

  /** `os.environ.get(name, default)`. */
  function EnvGet(env: Env, name: string, default: string): string {
    if name in env then env[name] else default
  }

  /** Maintenance mode is on when the variable is unset, and otherwise exactly
      when its value is "true" in any mix of upper and lower case; each other
      field is the variable's value, or its default when the variable is unset. */
  function GetConfig(env: Env): (c: Config)
    ensures c.maintenanceMode <==>
      ("MAINTENANCE_MODE" !in env || IsTrueInAnyCase(env["MAINTENANCE_MODE"]))
    ensures "S3_BUCKET" !in env ==> c.s3Bucket == DefaultS3Bucket
    ensures "S3_BUCKET" in env ==> c.s3Bucket == env["S3_BUCKET"]
    ensures "S3_KEY" !in env ==> c.s3Key == DefaultS3Key
    ensures "S3_KEY" in env ==> c.s3Key == env["S3_KEY"]
    ensures "SPECIAL_URL_PATH" !in env ==> c.specialUrlPath == DefaultSpecialUrlPath
    ensures "SPECIAL_URL_PATH" in env ==> c.specialUrlPath == env["SPECIAL_URL_PATH"]
    ensures "SPECIAL_LAMBDA_ARN" !in env ==> c.specialLambdaArn == ""
    ensures "SPECIAL_LAMBDA_ARN" in env ==> c.specialLambdaArn == env["SPECIAL_LAMBDA_ARN"]
  {
    var flag := EnvGet(env, "MAINTENANCE_MODE", DefaultMaintenanceMode);
    LowerIsTrue(flag);
    Config(
      maintenanceMode := Lower(flag) == "true",
      s3Bucket := EnvGet(env, "S3_BUCKET", DefaultS3Bucket),
      s3Key := EnvGet(env, "S3_KEY", DefaultS3Key),
      specialUrlPath := EnvGet(env, "SPECIAL_URL_PATH", DefaultSpecialUrlPath),
      specialLambdaArn := EnvGet(env, "SPECIAL_LAMBDA_ARN", DefaultSpecialLambdaArn))
  }

  /** Each variable is read on its own: changing `MAINTENANCE_MODE` changes
      the maintenance flag and nothing else. */
  lemma MaintenanceFlagIsIndependent(env: Env, value: string)
    ensures var c, d := GetConfig(env), GetConfig(env["MAINTENANCE_MODE" := value]);
      d == c.(maintenanceMode := IsTrueInAnyCase(value))
  {
  }

  /** Examples: only "true" spelt in any case counts; "1", "yes", "on",
      "false" and the empty string all mean "off". */
  lemma MaintenanceFlagExamples()
    ensures GetConfig(map[]).maintenanceMode
    ensures GetConfig(map["MAINTENANCE_MODE" := "TRUE"]).maintenanceMode
    ensures GetConfig(map["MAINTENANCE_MODE" := "True"]).maintenanceMode
    ensures !GetConfig(map["MAINTENANCE_MODE" := "false"]).maintenanceMode
    ensures !GetConfig(map["MAINTENANCE_MODE" := "1"]).maintenanceMode
    ensures !GetConfig(map["MAINTENANCE_MODE" := "yes"]).maintenanceMode
    ensures !GetConfig(map["MAINTENANCE_MODE" := "on"]).maintenanceMode
    ensures !GetConfig(map["MAINTENANCE_MODE" := ""]).maintenanceMode
  {
  }
}
