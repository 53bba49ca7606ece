/** The InfluxDB export settings of the statistics exporter and their
    validation (stats/influxdb.go). The exporter itself is not modelled. */
module Stats {
  import opened Wrappers
  import opened Urls

  datatype InfluxDBConfig = InfluxDBConfig(
    url: string,
    token: string,
    org: string,
    bucket: string,
    srtMeasurement: string,
    ristRxMeasurement: string,
    ristTxMeasurement: string,
    applicationMeasurement: string)

  datatype StatsError =
    | UrlRequired
    | InvalidUrl(url: string)
    | TokenRequired
    | OrgRequired
    | BucketRequired

  /** `InfluxDBConfig.Validate`; `None` stands for a nil receiver. The
      checks run in the order URL present, URL parses, token, org, bucket,
      and the first that fails decides the error. The measurement names
      are never looked at. */
  function Validate(c: Option<InfluxDBConfig>, parse: Parser): (r: Outcome<StatsError>)
    ensures r.Pass? <==> c.None? || (&& c.value.url != "" && parse(c.value.url).Some?
                                     && c.value.token != "" && c.value.org != "" && c.value.bucket != "")
    ensures c.Some? && c.value.url == "" ==> r == Fail(UrlRequired)
    ensures c.Some? && c.value.url != "" && parse(c.value.url).None? ==> r == Fail(InvalidUrl(c.value.url))
    ensures c.Some? && c.value.url != "" && parse(c.value.url).Some? ==>
              (if c.value.token == "" then r == Fail(TokenRequired)
               else if c.value.org == "" then r == Fail(OrgRequired)
               else if c.value.bucket == "" then r == Fail(BucketRequired)
               else r == Pass)
  {
    match c
    case None => Pass
    case Some(cfg) =>
      if cfg.url == "" then Fail(UrlRequired)
      else if parse(cfg.url).None? then Fail(InvalidUrl(cfg.url))
      else if cfg.token == "" then Fail(TokenRequired)
      else if cfg.org == "" then Fail(OrgRequired)
      else if cfg.bucket == "" then Fail(BucketRequired)
      else Pass
  }

  /** Changing only the measurement names never changes the verdict. */
  lemma MeasurementsAreNotChecked(c: InfluxDBConfig, srt: string, rx: string, tx: string, app: string, parse: Parser)
    ensures Validate(Some(c.(srtMeasurement := srt, ristRxMeasurement := rx,
                             ristTxMeasurement := tx, applicationMeasurement := app)), parse)
            == Validate(Some(c), parse)
  {
  }
}
