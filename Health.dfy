/** The overall verdict of the `/health` endpoint in bot.py. */
module Health {

  datatype Status = Healthy | Degraded | Unhealthy

  datatype Report = Report(status: Status, httpCode: int)

  /** The status starts "healthy", a failed database probe marks it
      "degraded", and the final classification then decides. */
  function HealthCheck(botConnected: bool, dbAccessible: bool, mapsAvailable: bool): (r: Report)
    ensures r.status == Unhealthy <==> !(botConnected && dbAccessible)
    ensures r.status == Degraded <==> botConnected && dbAccessible && !mapsAvailable
    ensures r.status == Healthy <==> botConnected && dbAccessible && mapsAvailable
    ensures r.httpCode == (if r.status == Unhealthy then 503 else 200)
  {
    var afterProbe := if dbAccessible then Healthy else Degraded;
    if !(botConnected && dbAccessible) then Report(Unhealthy, 503)
    else if !mapsAvailable then Report(Degraded, 200)
    else Report(afterProbe, 200)
  }
}
