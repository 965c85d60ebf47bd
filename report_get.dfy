// The report download of the dashboard example
// (server/api/download/report.get.ts): a gate that raises a transport-level
// 401, ten staged waits, then a zero-filled PDF blob and its three headers.
module ReportHandler {
  import opened Api
  import opened ServerKit
  import Decimal

  const TotalChunks := 10
  const ChunkDelayMs := 200
  const ReportSize := 1024000
  const PdfType := "application/pdf"
  const ReportDisposition := "attachment; filename=\"report.pdf\""

  /** A raised HTTP error, or the binary body. */
  datatype Download = Raised(statusCode: nat, message: string) | Blob(mimeType: string, content: seq<bv8>)

  /** The three headers, in the order they are set, for a blob of this type and size. */
  function BlobHeaders(mimeType: string, size: nat): seq<Effect>
  {
    [SetHeader("Content-Type", mimeType),
     SetHeader("Content-Disposition", ReportDisposition),
     SetHeader("Content-Length", Decimal.Show(size))]
  }

  /** The literal Content-Length value is the decimal spelling of the payload size. */
  lemma ContentLengthSpelling()
    ensures Decimal.Show(ReportSize) == "1024000"
  {
    assert Decimal.Show(1) == "1";
    assert Decimal.Show(10) == "10";
    assert Decimal.Show(102) == "102";
    assert Decimal.Show(1024) == "1024";
    assert Decimal.Show(10240) == "10240";
    assert Decimal.Show(102400) == "102400";
  }

  method HandleReport(user: Option<UserRecord>) returns (r: Download, effects: seq<Effect>)
    // no user: a raised 401, with no wait, no header and no payload
    ensures user.None? ==> r == Raised(401, "Unauthorized") && effects == []
    // a user: 1024000 zero bytes typed as PDF
    ensures user.Some? ==>
              r.Blob? && r.mimeType == PdfType && |r.content| == ReportSize
              && forall k :: 0 <= k < |r.content| ==> r.content[k] == 0
    // ten waits first, then headers that agree with the blob's type and length
    ensures user.Some? ==>
              |effects| == TotalChunks + 3
              && Delays(effects[..TotalChunks], TotalChunks, ChunkDelayMs)
              && effects[TotalChunks..] == BlobHeaders(r.mimeType, |r.content|)
  {
    if user.None? {
      return Raised(401, "Unauthorized"), [];
    }
    effects := [];
    for i := 0 to TotalChunks
      invariant Delays(effects, i, ChunkDelayMs)
    {
      effects := effects + [Sleep(ChunkDelayMs)];
    }
    var content := new bv8[ReportSize](_ => 0);
    var blob := Blob(PdfType, content[..]);
    effects := effects + [SetHeader("Content-Type", "application/pdf")];
    effects := effects + [SetHeader("Content-Disposition", "attachment; filename=\"report.pdf\"")];
    effects := effects + [SetHeader("Content-Length", "1024000")];
    r := blob;
    ContentLengthSpelling();
  }
}
