/** Publication of the generated report (agent_deployment/agent.py): the
    upload helper, the per-run file name and storage key, and the presigned
    retrieval URL. Storage calls and the local file write are input
    outcomes. */
module Publish {
  import opened Wrappers
  import opened Values
  import opened Text
  import opened AgentTypes

  /** Lifetime of the presigned URL in seconds: six hours. */
  const PresignExpiry: nat := 21600

  /** Directory of the local temporary copy. */
  const TempDir: string := "/tmp/"

  /** Prefix of every storage key. */
  const KeyPrefix: string := "analysis-result-"

  /** `upload_to_s3`: `True` on success; `False` for a missing file, missing
      credentials or a client error; any other exception escapes. */
  function UploadToS3(o: UploadOutcome): (r: Outcome<bool>)
    ensures r == Returned(true) <==> o == Uploaded
    ensures r == Returned(false) <==> o == FileMissing || o == NoCredentials || o == ClientFailure
    ensures r.Raised? <==> o == OtherFailure
  {
    match o
    case Uploaded => Returned(true)
    case FileMissing => Returned(false)
    case NoCredentials => Returned(false)
    case ClientFailure => Returned(false)
    case OtherFailure => Raised
  }

  /** `f"{share_name}_report_" + str(uuid) + ".html"`. */
  function ReportFileName(shareName: Option<string>, uuid: string): string {
    PyStr(shareName) + "_report_" + uuid + ".html"
  }

  /** `f"analysis-result-{share_name}-{ticker_symbol}/{file_name}"`. */
  function StorageKey(shareName: Option<string>, ticker: Option<string>, fileName: string): string {
    KeyPrefix + PyStr(shareName) + "-" + PyStr(ticker) + "/" + fileName
  }

  /** The storage key of a run follows the documented layout
      `analysis-result-{share}-{ticker}/{share}_report_{uuid}.html`. */
  lemma StorageKeyLayout(shareName: Option<string>, ticker: Option<string>, uuid: string)
    ensures var key := StorageKey(shareName, ticker, ReportFileName(shareName, uuid));
            && StartsWith(key, KeyPrefix + PyStr(shareName) + "-" + PyStr(ticker) + "/")
            && key[|key| - |uuid + ".html"|..] == uuid + ".html"
            && key == KeyPrefix + PyStr(shareName) + "-" + PyStr(ticker) + "/" + PyStr(shareName) + "_report_" + uuid + ".html"
  {
    var key := StorageKey(shareName, ticker, ReportFileName(shareName, uuid));
    var dir := KeyPrefix + PyStr(shareName) + "-" + PyStr(ticker) + "/";
    var stem := dir + PyStr(shareName) + "_report_";
    assert key == stem + (uuid + ".html");
    assert key[..|dir|] == dir;
  }

  /** A common prefix and suffix can be cancelled. */
  lemma CancelAffixes(stem: string, a: string, b: string, suffix: string)
    requires stem + a + suffix == stem + b + suffix
    ensures a == b
  {
    var s := stem + a + suffix;
    assert |a| == |b|;
    assert a == s[|stem|..|stem| + |a|];
    assert b == (stem + b + suffix)[|stem|..|stem| + |b|];
  }

  /** The storage key determines the run identifier: two runs with different
      identifiers publish under different keys, so one run's report never
      overwrites another's. */
  lemma StorageKeyInjective(shareName: Option<string>, ticker: Option<string>, u1: string, u2: string)
    ensures (StorageKey(shareName, ticker, ReportFileName(shareName, u1))
             == StorageKey(shareName, ticker, ReportFileName(shareName, u2))) ==> u1 == u2
  {
    var stem := KeyPrefix + PyStr(shareName) + "-" + PyStr(ticker) + "/" + PyStr(shareName) + "_report_";
    StorageKeyLayout(shareName, ticker, u1);
    StorageKeyLayout(shareName, ticker, u2);
    if StorageKey(shareName, ticker, ReportFileName(shareName, u1))
       == StorageKey(shareName, ticker, ReportFileName(shareName, u2)) {
      CancelAffixes(stem, u1, u2, ".html");
    }
  }

  /** Whether a URL came out of publication, with the calls made on the way. */
  datatype Publication = Publication(url: Outcome<Option<string>>, effects: seq<Effect>)

  /** The publication block at the end of `MasterAgent.run`: only a non-empty
      report is written to the temporary file. `fileWrite` is how that write
      went: `Raised` when opening or writing the file raised (a share name
      holding a `/` names a directory that does not exist, for one), and
      otherwise whether `os.path.exists` then finds the file. When it does,
      the file is uploaded (the boolean result is discarded) and a URL valid
      for 21600 seconds is minted. An exception escaping the write, the upload
      or the presign call is `Raised`. */
  function PublishReport(shareName: Option<string>, ticker: Option<string>, html: Option<string>,
                         uuid: string, fileWrite: Outcome<bool>, bucket: Option<string>,
                         upload: UploadOutcome, presign: Outcome<string>): (r: Publication)
    ensures r.url.Returned? && r.url.value.Some? <==>
              PyTruthyText(html) && fileWrite == Returned(true) && upload != OtherFailure && presign.Returned?
    ensures r.url.Returned? && r.url.value.Some? ==> r.url.value.value == presign.value
    ensures r.url.Raised? <==>
              PyTruthyText(html)
              && (fileWrite.Raised? || (fileWrite == Returned(true) && (upload == OtherFailure || presign.Raised?)))
    ensures !PyTruthyText(html) || fileWrite == Returned(false) ==> r == Publication(Returned(None), [])
    ensures forall e :: e in r.effects ==> e.UploadFile? || e.PresignGet?
    ensures PyTruthyText(html) && fileWrite == Returned(true) ==>
              var key := StorageKey(shareName, ticker, ReportFileName(shareName, uuid));
              && |r.effects| >= 1
              && r.effects[0] == UploadFile(TempDir + ReportFileName(shareName, uuid), bucket, key)
              && (upload != OtherFailure ==> r.effects == [r.effects[0], PresignGet(bucket, key, PresignExpiry)])
  {
    if !PyTruthyText(html) then Publication(Returned(None), [])
    else
      match fileWrite
      case Raised => Publication(Raised, [])
      case Returned(found) =>
        if !found then Publication(Returned(None), [])
        else
          var fileName := ReportFileName(shareName, uuid);
          var key := StorageKey(shareName, ticker, fileName);
          var put := UploadFile(TempDir + fileName, bucket, key);
          match UploadToS3(upload)
          case Raised => Publication(Raised, [put])
          case Returned(_) =>
            var sign := PresignGet(bucket, key, PresignExpiry);
            match presign
            case Raised => Publication(Raised, [put, sign])
            case Returned(url) => Publication(Returned(Some(url)), [put, sign])
  }

  /** The URL does not depend on whether the upload reported success: a failed
      upload (`False`) still yields the same URL as a successful one. */
  lemma UrlIgnoresUploadResult(shareName: Option<string>, ticker: Option<string>, html: Option<string>,
                               uuid: string, fileWrite: Outcome<bool>, bucket: Option<string>,
                               failure: UploadOutcome, presign: Outcome<string>)
    requires failure == FileMissing || failure == NoCredentials || failure == ClientFailure
    ensures PublishReport(shareName, ticker, html, uuid, fileWrite, bucket, failure, presign)
         == PublishReport(shareName, ticker, html, uuid, fileWrite, bucket, Uploaded, presign)
  {
  }
}
