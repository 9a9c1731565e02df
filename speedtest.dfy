/**
 * Summary construction: the per-phase results of a speed test are turned
 * into four value/unit pairs (download and upload throughput, download
 * retransmission rate, minimum round-trip time) and the server's name.
 *
 * Values are exact reals; the Go program computes them in float64.
 */
module Speedtest {
  import opened Wrappers

  /** The key of a result map entry: the name of a test phase. */
  type TestKind = string

  const TestDownload: TestKind := "download"
  const TestUpload: TestKind := "upload"

  /** Client-side application counters: bytes moved and microseconds elapsed. */
  datatype AppInfo = AppInfo(numBytes: int, elapsedTime: int)

  /** Server-side TCP counters; the round-trip time is in microseconds. */
  datatype TCPInfo = TCPInfo(bytesSent: int, bytesRetrans: int, minRtt: nat)

  /** One side's measurement; either part may be missing. */
  datatype Measurement = Measurement(appInfo: Option<AppInfo>, tcpInfo: Option<TCPInfo>)

  /** The last measurement of a phase, as seen by the client and by the server. */
  datatype LatestMeasurements = LatestMeasurements(client: Measurement, server: Measurement)

  datatype ValueUnitPair = ValueUnitPair(value: real, unit: string)

  /** The pair a metric keeps when its data is missing. */
  const ZeroPair := ValueUnitPair(0.0, "")

  datatype Summary = Summary(
    serverFqdn: string,
    serverIp: string,
    clientIp: string,
    downloadUuid: string,
    download: ValueUnitPair,
    upload: ValueUnitPair,
    downloadRetrans: ValueUnitPair,
    minRtt: ValueUnitPair)

  const SummaryFailure := "download or upload failed"

  /**
   * Throughput in Mbit/s, which is bits per microsecond, when the counters
   * are present and some time elapsed.
   */
  function Throughput(app: Option<AppInfo>): (p: ValueUnitPair)
    ensures p.unit == "Mbit/s" <==> app.Some? && app.value.elapsedTime > 0
    ensures p.unit == "Mbit/s" ==>
      p.value * app.value.elapsedTime as real == 8.0 * app.value.numBytes as real
    ensures p.unit != "Mbit/s" ==> p == ZeroPair
  {
    if app.Some? && app.value.elapsedTime > 0 then
      ValueUnitPair(8.0 * app.value.numBytes as real / app.value.elapsedTime as real, "Mbit/s")
    else
      ZeroPair
  }

  /** Percentage of the sent bytes that were retransmitted, when any were sent. */
  function RetransmissionRate(tcp: Option<TCPInfo>): (p: ValueUnitPair)
    ensures p.unit == "%" <==> tcp.Some? && tcp.value.bytesSent > 0
    ensures p.unit == "%" ==>
      p.value * tcp.value.bytesSent as real == 100.0 * tcp.value.bytesRetrans as real
    ensures p.unit != "%" ==> p == ZeroPair
  {
    if tcp.Some? && tcp.value.bytesSent > 0 then
      ValueUnitPair(100.0 * tcp.value.bytesRetrans as real / tcp.value.bytesSent as real, "%")
    else
      ZeroPair
  }

  /** The minimum round-trip time in milliseconds, whenever TCP counters exist. */
  function MinRoundTrip(tcp: Option<TCPInfo>): (p: ValueUnitPair)
    ensures p.unit == "ms" <==> tcp.Some?
    ensures tcp.Some? ==> p.value * 1000.0 == tcp.value.minRtt as real && p.value >= 0.0
    ensures tcp.None? ==> p == ZeroPair
  {
    if tcp.Some? then ValueUnitPair(tcp.value.minRtt as real / 1000.0, "ms") else ZeroPair
  }

  /**
   * The summary of a result map: it exists exactly when both phases have an
   * entry; only the download server side supplies TCP figures.
   */
  function Summarize(fqdn: string, result: map<TestKind, LatestMeasurements>): (r: Result<Summary, string>)
    ensures r.Ok? <==> TestDownload in result && TestUpload in result
    ensures r.Err? ==> r.error == SummaryFailure
    ensures r.Ok? ==> r.value.serverFqdn == fqdn
    ensures r.Ok? ==> r.value.serverIp == "" && r.value.clientIp == "" && r.value.downloadUuid == ""
  {
    if TestDownload in result && TestUpload in result then
      var download := result[TestDownload];
      var upload := result[TestUpload];
      Ok(Summary(fqdn, "", "", "",
                 Throughput(download.client.appInfo),
                 Throughput(upload.client.appInfo),
                 RetransmissionRate(download.server.tcpInfo),
                 MinRoundTrip(download.server.tcpInfo)))
    else
      Err(SummaryFailure)
  }

  /**
   * The program's throughput formula: elapsed microseconds are turned into
   * seconds, bits are divided by them, and the quotient by one million.
   */
  function MbitPerSecond(numBytes: int, elapsedTime: int): (v: real)
    requires elapsedTime > 0
    ensures v * elapsedTime as real == 8.0 * numBytes as real
  {
    var elapsed := elapsedTime as real / 1000000.0;
    assert elapsed * 1000000.0 == elapsedTime as real;
    (8.0 * numBytes as real) / elapsed / (1000.0 * 1000.0)
  }

  /** The formula above gives the same throughput as bits per microsecond. */
  lemma MbitPerSecondIsThroughput(app: AppInfo)
    requires app.elapsedTime > 0
    ensures Throughput(Some(app)) == ValueUnitPair(MbitPerSecond(app.numBytes, app.elapsedTime), "Mbit/s")
  {
  }

  /**
   * Builds the summary the way the program does: a summary holding only the
   * server name, whose metrics are overwritten under nested guards, and an
   * error at the end if either phase is missing.
   */
  method NewSummary(fqdn: string, result: map<TestKind, LatestMeasurements>)
    returns (r: Result<Summary, string>)
    ensures r == Summarize(fqdn, result)
  {
    var summary := Summary(fqdn, "", "", "", ZeroPair, ZeroPair, ZeroPair, ZeroPair);
    var downloadOk := TestDownload in result;
    var uploadOk := TestUpload in result;

    if downloadOk {
      var download := result[TestDownload];
      if download.client.appInfo.Some? && download.client.appInfo.value.elapsedTime > 0 {
        var app := download.client.appInfo.value;
        MbitPerSecondIsThroughput(app);
        summary := summary.(download := ValueUnitPair(MbitPerSecond(app.numBytes, app.elapsedTime), "Mbit/s"));
      }

      if download.server.tcpInfo.Some? {
        var tcp := download.server.tcpInfo.value;
        if tcp.bytesSent > 0 {
          var rate := tcp.bytesRetrans as real / tcp.bytesSent as real * 100.0;
          assert rate == RetransmissionRate(Some(tcp)).value;
          summary := summary.(downloadRetrans := ValueUnitPair(rate, "%"));
        }
        summary := summary.(minRtt := ValueUnitPair(tcp.minRtt as real / 1000.0, "ms"));
      }
    }

    if uploadOk && result[TestUpload].client.appInfo.Some? &&
       result[TestUpload].client.appInfo.value.elapsedTime > 0 {
      var app := result[TestUpload].client.appInfo.value;
      MbitPerSecondIsThroughput(app);
      summary := summary.(upload := ValueUnitPair(MbitPerSecond(app.numBytes, app.elapsedTime), "Mbit/s"));
    }

    if !downloadOk || !uploadOk {
      return Err(SummaryFailure);
    }
    return Ok(summary);
  }

  // ---------------------------------------------------------------------------
  // Properties of the summary
  // ---------------------------------------------------------------------------

  /** The retransmission rate of consistent counters is a percentage between 0 and 100. */
  lemma RetransmissionRateBounded(tcp: TCPInfo)
    requires 0 <= tcp.bytesRetrans <= tcp.bytesSent && tcp.bytesSent > 0
    ensures 0.0 <= RetransmissionRate(Some(tcp)).value <= 100.0
  {
  }

  /** Some bytes over some time is a positive throughput. */
  lemma ThroughputPositive(app: AppInfo)
    requires app.numBytes > 0 && app.elapsedTime > 0
    ensures Throughput(Some(app)).value > 0.0
  {
  }

  /**
   * The round-trip time is reported whenever the download server sent TCP
   * counters, even when it reports no bytes sent; the rate then stays zero.
   */
  lemma MinRttWithoutBytesSent(fqdn: string, result: map<TestKind, LatestMeasurements>, tcp: TCPInfo)
    requires TestDownload in result && TestUpload in result
    requires result[TestDownload].server.tcpInfo == Some(tcp) && tcp.bytesSent == 0
    ensures Summarize(fqdn, result).value.downloadRetrans == ZeroPair
    ensures Summarize(fqdn, result).value.minRtt.unit == "ms"
    ensures Summarize(fqdn, result).value.minRtt.value * 1000.0 == tcp.minRtt as real
  {
  }

  /** The upload server's side is never read: replacing it changes nothing. */
  lemma UploadServerIgnored(fqdn: string, result: map<TestKind, LatestMeasurements>, server: Measurement)
    requires TestUpload in result
    ensures Summarize(fqdn, result[TestUpload := result[TestUpload].(server := server)]) ==
            Summarize(fqdn, result)
  {
  }

  /** Entries under any other key are ignored. */
  lemma OtherKindsIgnored(fqdn: string, result: map<TestKind, LatestMeasurements>, kind: TestKind, m: LatestMeasurements)
    requires kind != TestDownload && kind != TestUpload
    ensures Summarize(fqdn, result[kind := m]) == Summarize(fqdn, result)
  {
  }

  /** 12,500,000 bytes in one second is 100 Mbit/s. */
  lemma ThroughputExample()
    ensures Throughput(Some(AppInfo(12_500_000, 1_000_000))) == ValueUnitPair(100.0, "Mbit/s")
  {
  }

  /** 50 of 1000 bytes retransmitted is 5 %. */
  lemma RetransmissionExample()
    ensures RetransmissionRate(Some(TCPInfo(1000, 50, 0))) == ValueUnitPair(5.0, "%")
  {
  }

  /** 25,000 microseconds is 25 ms. */
  lemma RoundTripExample()
    ensures MinRoundTrip(Some(TCPInfo(0, 0, 25_000))) == ValueUnitPair(25.0, "ms")
  {
  }

  /**
   * Both phases present without TCP counters: positive throughputs and zero
   * retransmission and round-trip pairs.
   */
  lemma NoTcpInfo(fqdn: string, down: AppInfo, up: AppInfo)
    requires down.numBytes > 0 && down.elapsedTime > 0 && up.numBytes > 0 && up.elapsedTime > 0
    ensures var r := Summarize(fqdn, map[TestDownload := LatestMeasurements(Measurement(Some(down), None), Measurement(None, None)),
                                          TestUpload := LatestMeasurements(Measurement(Some(up), None), Measurement(None, None))]);
      r.Ok? && r.value.download.value > 0.0 && r.value.upload.value > 0.0 &&
      r.value.downloadRetrans == ZeroPair && r.value.minRtt == ZeroPair
  {
  }
}
