/**
 * File uploads: the checks and the stored name of `upload_file_local`, the
 * Azure helper that turns every failure into "no name", and the `/upload`
 * endpoint that tries Azure first and falls back to local storage.
 *
 * The clock, the disk and the Azure SDK are parameters: a timestamp in
 * milliseconds per call to the clock, whether the Azure side stored the file,
 * and the error message of a failed local write.
 */
module Upload {
  import opened Wrappers
  import opened Text

  /** The file types the backend accepts. */
  const FileTypeList: seq<string> := ["inspections", "profiles", "documents", "others", "front",
    "back", "left", "right", "roof", "interior", "damage1", "damage2", "damage3"]

  datatype HttpError = HttpError(statusCode: int, detail: string)

  const InvalidFileType := HttpError(400, "Invalid file type.")
  const InvalidFilename := HttpError(400, "Invalid filename")

  /** A path component `Path` drops: an empty one (from "//" or the ends) or ".". */
  predicate Skipped(part: string)
  {
    part == "" || part == "."
  }

  /** The last entry of `parts` that is neither empty nor ".", or "" when there is none. */
  function LastComponent(parts: seq<string>): (name: string)
    ensures name == "" <==> forall j :: 0 <= j < |parts| ==> Skipped(parts[j])
    ensures name != "" ==>
      exists j :: 0 <= j < |parts| && parts[j] == name && forall k :: j < k < |parts| ==> Skipped(parts[k])
    ensures name != "."
  {
    if |parts| == 0 then ""
    else
      var last := parts[|parts| - 1];
      if last == "" || last == "." then LastComponent(parts[..|parts| - 1]) else last
  }

  /**
   * `Path(p).name` for a POSIX path: the path is split at '/', empty and "."
   * components are dropped, and the last one left is the name.
   */
  function PathName(p: string): (name: string)
    ensures '/' !in name
    ensures name != "."
  {
    LastComponent(SplitOn(p, '/'))
  }

  /** `Path(file.filename or "unknown").name`: a missing or empty filename reads as "unknown". */
  function SafeName(filename: Option<string>): (name: string)
    ensures filename.None? || filename == Some("") ==> name == "unknown"
    ensures '/' !in name
  {
    var given := if filename.None? || filename.value == "" then "unknown" else filename.value;
    PathNameStripsDirectories("", "unknown");
    PathName(given)
  }

  /** The name a file is saved under: `f"{timestamp}_{safe_filename}"`. */
  function SavedFilename(timestamp: nat, name: string): string
  {
    NatToString(timestamp) + "_" + name
  }

  /** Reads a saved name back into its timestamp and the original name. */
  function ParseSavedFilename(saved: string): (nat, string)
    requires '_' in saved
    requires IsDigitString(saved[..IndexOf(saved, '_')])
  {
    var i := IndexOf(saved, '_');
    (ParseDecimal(saved[..i]), saved[i + 1..])
  }

  /**
   * `upload_file_local`: an unknown file type and a name containing ".." are
   * rejected with 400; a failed write is a 500 carrying the error text;
   * otherwise the file is stored under the saved name, which is returned.
   */
  function UploadFileLocal(fileType: string, filename: Option<string>, timestamp: nat,
                           writeError: Option<string>): (r: Result<string, HttpError>)
    ensures r.Success? <==>
      fileType in FileTypeList && !Contains(SafeName(filename), "..") && writeError.None?
    ensures fileType !in FileTypeList ==> r == Failure(InvalidFileType)
    ensures fileType in FileTypeList && Contains(SafeName(filename), "..") ==> r == Failure(InvalidFilename)
    ensures r.Failure? && r.error.statusCode != 400 ==>
      writeError.Some? && r.error == HttpError(500, "Local upload failed: " + writeError.value)
    ensures r.Success? ==> r.value == SavedFilename(timestamp, SafeName(filename))
  {
    if fileType !in FileTypeList then Failure(InvalidFileType)
    else
      var name := SafeName(filename);
      if Contains(name, "..") then Failure(InvalidFilename)
      else
        var saved := SavedFilename(timestamp, name);
        match writeError
        case Some(e) => Failure(HttpError(500, "Local upload failed: " + e))
        case None => Success(saved)
  }

  /**
   * `upload_file_to_azure`: with no configured client, or on any exception
   * (its own validation errors, the local backup write, the blob upload, all
   * summed up in `stored`), the result is no name.
   */
  function UploadFileToAzure(clientConfigured: bool, fileType: string, filename: Option<string>,
                             timestamp: nat, stored: bool): (r: Option<string>)
    ensures !clientConfigured || !stored || fileType !in FileTypeList ==> r.None?
    ensures Contains(SafeName(filename), "..") ==> r.None?
    ensures r.Some? ==> r.value == SavedFilename(timestamp, SafeName(filename))
  {
    if !clientConfigured then None
    else if fileType !in FileTypeList then None
    else
      var name := SafeName(filename);
      if Contains(name, "..") || (|name| > 0 && name[0] == '/') then None
      else if !stored then None
      else Some(SavedFilename(timestamp, name))
  }

  datatype AzureConfig = AzureConfig(clientConfigured: bool, accountName: string, container: string)

  datatype UploadResponse = UploadResponse(statusCode: int, status: string, message: string,
                                           fileName: string, url: string)

  /** `s.endswith(suffix)`. */
  predicate EndsWith(s: string, suffix: string)
  {
    |suffix| <= |s| && s[|s| - |suffix|..] == suffix
  }

  /** The blob URL: account host, container, then `{fileType}/{name}`. */
  function AzureUrl(azure: AzureConfig, fileType: string, name: string): (url: string)
    ensures EndsWith(url, "/" + fileType + "/" + name)
  {
    var url := "https://" + azure.accountName + ".blob.core.windows.net/" + azure.container + "/" +
               fileType + "/" + name;
    var host := "https://" + azure.accountName + ".blob.core.windows.net/" + azure.container;
    var tail := "/" + fileType + "/" + name;
    assert url == host + tail;
    assert (host + tail)[|host + tail| - |tail|..] == tail;
    url
  }

  /** The local URL: the request's base URL, then `files/{fileType}/{name}`. */
  function LocalUrl(baseUrl: string, fileType: string, name: string): (url: string)
    ensures baseUrl <= url
    ensures EndsWith(url, "/" + fileType + "/" + name)
  {
    var url := baseUrl + "files/" + fileType + "/" + name;
    var head := baseUrl + "files";
    var tail := "/" + fileType + "/" + name;
    assert url == head + tail;
    assert (head + tail)[|head + tail| - |tail|..] == tail;
    assert (head + tail)[..|baseUrl|] == baseUrl;
    url
  }

  /**
   * The `/upload` endpoint: Azure first when a client is configured; when that
   * yields no name, local storage, whose errors become the response.
   */
  function UploadFileEndpoint(azure: AzureConfig, baseUrl: string, fileType: string,
                              filename: Option<string>, azureTimestamp: nat, azureStored: bool,
                              localTimestamp: nat, localWriteError: Option<string>)
    : (r: Result<UploadResponse, HttpError>)
    ensures r.Success? ==> r.value.statusCode == 201 && r.value.status == "success"
    ensures r.Success? ==>
      (r.value.fileName == SavedFilename(azureTimestamp, SafeName(filename)) ||
       r.value.fileName == SavedFilename(localTimestamp, SafeName(filename)))
    ensures r.Success? ==> EndsWith(r.value.url, "/" + fileType + "/" + r.value.fileName)
    ensures r.Failure? ==> r.error.statusCode == 400 || r.error.statusCode == 500
  {
    var azureName := if azure.clientConfigured
      then UploadFileToAzure(azure.clientConfigured, fileType, filename, azureTimestamp, azureStored)
      else None;
    if azureName.Some? && azureName.value != "" then
      Success(UploadResponse(201, "success", "File uploaded successfully", azureName.value,
                             AzureUrl(azure, fileType, azureName.value)))
    else
      match UploadFileLocal(fileType, filename, localTimestamp, localWriteError)
      case Failure(e) => Failure(e)
      case Success(name) =>
        Success(UploadResponse(201, "success", "File uploaded successfully", name,
                               LocalUrl(baseUrl, fileType, name)))
  }

  /** `Path(p).name` drops every directory in front of a plain file name. */
  lemma PathNameStripsDirectories(dir: string, name: string)
    requires name != "" && name != "." && '/' !in name
    ensures PathName(name) == name
    ensures PathName(dir + "/" + name) == name
  {
    assert SplitOn(name, '/') == [name];
    SplitOnConcat(dir, name, '/');
  }

  /** A saved name reads back as the timestamp and the name it was built from. */
  lemma SavedFilenameRoundTrip(timestamp: nat, name: string)
    ensures var saved := SavedFilename(timestamp, name);
      '_' in saved && IsDigitString(saved[..IndexOf(saved, '_')]) &&
      ParseSavedFilename(saved) == (timestamp, name)
  {
    var digits := NatToString(timestamp);
    var saved := SavedFilename(timestamp, name);
    assert '_' !in digits;
    IndexOfSeparator(digits, '_', name);
    assert saved[..|digits|] == digits;
    assert saved[|digits| + 1..] == name;
    ParseNatToString(timestamp);
  }

  /** A saved name has no '/' and no "..", as long as the name it was built from has none. */
  lemma SavedFilenameIsSafe(timestamp: nat, name: string)
    requires '/' !in name && !Contains(name, "..")
    ensures '/' !in SavedFilename(timestamp, name)
    ensures !Contains(SavedFilename(timestamp, name), "..")
  {
    var prefix := NatToString(timestamp) + "_";
    assert '.' !in prefix;
    assert SavedFilename(timestamp, name) == prefix + name;
    ContainsSkipPrefix(prefix, name, "..");
  }

  /**
   * The Azure helper's extra test for a leading '/' never fires, so it accepts
   * exactly what `upload_file_local` accepts, under the same saved name.
   */
  lemma AzureValidationMatchesLocal(fileType: string, filename: Option<string>, timestamp: nat)
    ensures UploadFileToAzure(true, fileType, filename, timestamp, true).Some? <==>
            UploadFileLocal(fileType, filename, timestamp, None).Success?
    ensures UploadFileToAzure(true, fileType, filename, timestamp, true).Some? ==>
            UploadFileToAzure(true, fileType, filename, timestamp, true).value ==
            UploadFileLocal(fileType, filename, timestamp, None).value
  {
    var name := SafeName(filename);
    if |name| > 0 {
      assert name[0] in name;
    }
  }

  /** Every name the endpoint reports is free of '/' and "..". */
  lemma EndpointNamesAreSafe(azure: AzureConfig, baseUrl: string, fileType: string,
                             filename: Option<string>, azureTimestamp: nat, azureStored: bool,
                             localTimestamp: nat, localWriteError: Option<string>)
    ensures var r := UploadFileEndpoint(azure, baseUrl, fileType, filename, azureTimestamp,
                                        azureStored, localTimestamp, localWriteError);
      r.Success? ==> '/' !in r.value.fileName && !Contains(r.value.fileName, "..")
  {
    var name := SafeName(filename);
    if !Contains(name, "..") {
      SavedFilenameIsSafe(azureTimestamp, name);
      SavedFilenameIsSafe(localTimestamp, name);
    }
  }

  /** An unknown file type is a 400, whatever Azure would have done. */
  lemma EndpointRejectsUnknownType(azure: AzureConfig, baseUrl: string, fileType: string,
                                   filename: Option<string>, azureTimestamp: nat, azureStored: bool,
                                   localTimestamp: nat, localWriteError: Option<string>)
    requires fileType !in FileTypeList
    ensures UploadFileEndpoint(azure, baseUrl, fileType, filename, azureTimestamp, azureStored,
                               localTimestamp, localWriteError) == Failure(InvalidFileType)
  {
  }

  /** A name containing ".." is a 400, whatever Azure would have done. */
  lemma EndpointRejectsDotDot(azure: AzureConfig, baseUrl: string, fileType: string,
                              filename: Option<string>, azureTimestamp: nat, azureStored: bool,
                              localTimestamp: nat, localWriteError: Option<string>)
    requires fileType in FileTypeList && Contains(SafeName(filename), "..")
    ensures UploadFileEndpoint(azure, baseUrl, fileType, filename, azureTimestamp, azureStored,
                               localTimestamp, localWriteError) == Failure(InvalidFilename)
  {
  }

  /**
   * When Azure yields no name (no client, or any failure there) the endpoint
   * answers with local storage's outcome and a URL under the request's base URL.
   */
  lemma EndpointFallsBackToLocal(azure: AzureConfig, baseUrl: string, fileType: string,
                                 filename: Option<string>, azureTimestamp: nat, azureStored: bool,
                                 localTimestamp: nat, localWriteError: Option<string>)
    requires !azure.clientConfigured || !azureStored
    ensures var r := UploadFileEndpoint(azure, baseUrl, fileType, filename, azureTimestamp,
                                        azureStored, localTimestamp, localWriteError);
      var local := UploadFileLocal(fileType, filename, localTimestamp, localWriteError);
      && (r.Success? <==> local.Success?)
      && (local.Failure? ==> r == Failure(local.error))
      && (local.Success? ==>
            r.value.fileName == local.value &&
            r.value.url == baseUrl + "files/" + fileType + "/" + local.value)
  {
    var local := UploadFileLocal(fileType, filename, localTimestamp, localWriteError);
    assert UploadFileToAzure(azure.clientConfigured, fileType, filename, azureTimestamp, azureStored).None?;
    if local.Success? {
      assert local.value == SavedFilename(localTimestamp, SafeName(filename));
    }
  }

  /** When Azure stores the file, the endpoint answers 201 with the blob URL. */
  lemma EndpointUsesAzure(azure: AzureConfig, baseUrl: string, fileType: string,
                          filename: Option<string>, azureTimestamp: nat,
                          localTimestamp: nat, localWriteError: Option<string>)
    requires azure.clientConfigured
    requires fileType in FileTypeList && !Contains(SafeName(filename), "..")
    ensures var r := UploadFileEndpoint(azure, baseUrl, fileType, filename, azureTimestamp,
                                        true, localTimestamp, localWriteError);
      var name := SavedFilename(azureTimestamp, SafeName(filename));
      && r == Success(UploadResponse(201, "success", "File uploaded successfully", name,
                                     "https://" + azure.accountName + ".blob.core.windows.net/" +
                                     azure.container + "/" + fileType + "/" + name))
  {
    AzureValidationMatchesLocal(fileType, filename, azureTimestamp);
  }
}
