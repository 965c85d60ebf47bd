// The upload endpoint of the upload example (server/api/upload.post.ts): a
// missing file is refused at once; otherwise ten staged waits, then the
// file's metadata echoed back.
module UploadHandler {
  import opened Api
  import opened ServerKit

  const TotalChunks := 10
  const ChunkDelayMs := 200

  /** The `file` entry of the multipart form; its bytes are not modelled. */
  datatype UploadedFile = UploadedFile(name: string, size: nat, mimeType: string)

  datatype UploadEcho = UploadEcho(filename: string, size: nat, fileType: string, uploadedAt: string)

  /** The handler; `now` is the timestamp the clock would give. */
  method HandleUpload(file: Option<UploadedFile>, now: string) returns (r: Envelope<UploadEcho>, effects: seq<Effect>)
    // a missing file is refused before any wait
    ensures file.None? ==> r == Envelope(400, "No file provided", None) && effects == []
    // otherwise exactly ten waits, then the received file's own metadata
    ensures file.Some? ==> Delays(effects, TotalChunks, ChunkDelayMs)
    ensures file.Some? ==>
              r.code == 0 && r.message == "Upload successful"
              && r.data == Some(UploadEcho(file.value.name, file.value.size, file.value.mimeType, now))
  {
    if file.None? {
      return Envelope(400, "No file provided", None), [];
    }
    effects := [];
    for i := 0 to TotalChunks
      invariant Delays(effects, i, ChunkDelayMs)
    {
      effects := effects + [Sleep(ChunkDelayMs)];
    }
    var f := file.value;
    r := Envelope(0, "Upload successful", Some(UploadEcho(f.name, f.size, f.mimeType, now)));
  }
}
