/**
 * The parts of the hosting health-check framework that the Mongo check
 * produces or consumes: the status enumeration, the result record and the
 * exception a result may carry.
 */
module HealthChecks {
  import opened Wrappers

  /** The framework's three-valued status. */
  datatype HealthStatus = Unhealthy | Degraded | Healthy

  /** A thrown exception: its runtime type's full name and its message. */
  datatype Exception = Exception(typeFullName: string, message: string)

  /** What one evaluation of a check reports. */
  datatype HealthCheckResult = HealthCheckResult(status: HealthStatus, description: string, exception: Option<Exception>)
  {
    /** The framework's `HealthCheckResult.Healthy(description)`. */
    static function Healthy(description: string): HealthCheckResult
    {
      HealthCheckResult(HealthStatus.Healthy, description, None)
    }

    /** The framework's `HealthCheckResult.Unhealthy(description, exception)`; the
        status is always Unhealthy, whatever failure status the registration names. */
    static function Unhealthy(description: string, exception: Option<Exception>): HealthCheckResult
    {
      HealthCheckResult(HealthStatus.Unhealthy, description, exception)
    }
  }
}
