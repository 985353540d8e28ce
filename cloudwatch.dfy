/** The CloudWatch alarm requests the two alarm keepers send. */
module CloudWatch {
  datatype Dimension = Dimension(name: string, value: string)

  /** A PutMetricAlarm input; both keepers set a threshold of the float 0.0,
      written here as the integer 0. */
  datatype MetricAlarm = MetricAlarm(
    actionsEnabled: bool, metricName: string, alarmName: string, comparisonOperator: string,
    evaluationPeriods: int, period: int, statistic: string, threshold: int, alarmDescription: string,
    alarmActions: seq<string>, okActions: seq<string>, namespace: string, dimensions: seq<Dimension>)

  /** The requests that change the account's alarms. */
  datatype Effect = PutMetricAlarm(alarm: MetricAlarm) | DeleteAlarms(alarmNames: seq<string>)
}
