/** The storage credential issuer (src/azure/azure-storage.service.ts): reading
    the account out of the connection string, the public URL of a blob, the
    write-credentialed upload URL and the four upload URLs of a motion sheet.
    Signing is foreign: a `Signer` stands for the SAS library and the clock is
    a parameter. */
module Azure {
  import opened Wrappers
  import opened Text
  import opened Directions
  import Config

  datatype SharedKeyCredential = SharedKeyCredential(accountName: string, accountKey: string)

  /** What an upload token is signed over; `expiresOn` is `None` for an invalid
      date, which is what a non-numeric expiry setting produces. Times are in
      milliseconds. */
  datatype SasOptions = SasOptions(
    containerName: string,
    blobName: string,
    permissions: string,
    startsOn: int,
    expiresOn: Option<int>)

  /** `generateBlobSASQueryParameters(options, credential).toString()`. */
  type Signer = (SasOptions, SharedKeyCredential) -> string

  /** An upload URL (with its token) and the bare URL of the same blob. */
  datatype UploadSasUrl = UploadSasUrl(uploadUrl: string, blobUrl: string)

  const DefaultContainerName: string := "character"
  const DefaultExpiryMinutes: string := "60"
  /** Create and write: what an upload needs and no more. */
  const UploadPermissions: string := "cw"
  const MillisPerMinute: int := 60000

  /** The pattern `key=([^;]+)` with the `i` flag can match at `i`: the key in
      any letter case, `=`, then at least one character other than `;`. */
  predicate KeyAt(conn: string, key: string, i: nat)
  {
    i + |key| + 1 < |conn|
    && EqualsIgnoreCase(conn[i..i + |key|], key)
    && conn[i + |key|] == '='
    && conn[i + |key| + 1] != ';'
  }

  /** The leftmost match is at `i`. */
  predicate IsFirstKeyAt(conn: string, key: string, i: nat)
  {
    KeyAt(conn, key, i) && forall j: nat :: j < i ==> !KeyAt(conn, key, j)
  }

  /** The leftmost position at or after `from` where the pattern matches. */
  function FirstKeyAt(conn: string, key: string, from: nat): (r: Option<nat>)
    ensures r.None? ==> forall i: nat :: from <= i ==> !KeyAt(conn, key, i)
    ensures r.Some? ==>
      (from <= r.value && KeyAt(conn, key, r.value)
       && forall i: nat :: from <= i < r.value ==> !KeyAt(conn, key, i))
    decreases |conn| - from
  {
    if from + |key| + 1 >= |conn| then None
    else if KeyAt(conn, key, from) then Some(from)
    else FirstKeyAt(conn, key, from + 1)
  }

  /** The captured group of a match at `i`, trimmed: the greedy run of
      non-`;` characters after `key=`. */
  function ValueAt(conn: string, key: string, i: nat): (v: string)
    requires i + |key| + 1 <= |conn|
    ensures ';' !in v
  {
    var run := BeforeFirst(conn[i + |key| + 1..], ';');
    assert forall k :: 0 <= k < |Trim(run)| ==> Trim(run)[k] in run;
    Trim(run)
  }

  /** `parseFromConnectionString`: the value at the leftmost match; `None`
      when the pattern matches nowhere. */
  function ParseFromConnectionString(conn: string, key: string): (r: Option<string>)
    ensures r.None? <==> forall i: nat :: !KeyAt(conn, key, i)
    ensures forall i: nat :: IsFirstKeyAt(conn, key, i) ==> r == Some(ValueAt(conn, key, i))
  {
    match FirstKeyAt(conn, key, 0)
    case None => None
    case Some(i) => Some(ValueAt(conn, key, i))
  }

  /** A connection string that starts with `key=value` gives back `value`,
      whatever follows the next `;`. */
  lemma ParseLeadingEntry(key: string, value: string, rest: string)
    requires |value| >= 1 && ';' !in value
    requires !IsJsSpace(value[0]) && !IsJsSpace(value[|value| - 1])
    requires rest == [] || rest[0] == ';'
    ensures ParseFromConnectionString(key + "=" + value + rest, key) == Some(value)
  {
    var conn := key + "=" + value + rest;
    assert conn[0..|key|] == key;
    assert KeyAt(conn, key, 0);
    assert IsFirstKeyAt(conn, key, 0);
    assert conn[|key| + 1..] == value + rest;
    RunBeforeSeparator(value, rest);
    TrimOfTrimmed(value);
  }

  /** The run after `=` stops at the separator. */
  lemma RunBeforeSeparator(value: string, rest: string)
    requires ';' !in value
    requires rest == [] || rest[0] == ';'
    ensures BeforeFirst(value + rest, ';') == value
  {
    if rest == [] {
      assert value + rest == value;
    } else {
      assert value + rest == value + [';'] + rest[1..];
      BeforeFirstOfJoin(value, ';', rest[1..]);
    }
  }

  /** A value that neither starts nor ends with a space is its own trim. */
  lemma TrimOfTrimmed(value: string)
    requires |value| >= 1 && !IsJsSpace(value[0]) && !IsJsSpace(value[|value| - 1])
    ensures Trim(value) == value
  {
    assert TrimStart(value) == value;
    assert TrimEnd(value) == value;
  }

  /** `key=;` is no match: the value must hold at least one character. */
  lemma EmptyEntryIsNull()
    ensures ParseFromConnectionString("AccountName=;", "AccountName") == None
  {
    var conn := "AccountName=;";
    forall i: nat ensures !KeyAt(conn, "AccountName", i) {
      if i == 0 {
        assert conn[12] == ';';
      }
    }
  }

  /** The constructed service: every field is fixed once from configuration. */
  datatype AzureStorageService = AzureStorageService(
    accountName: string,
    accountKey: string,
    containerName: string,
    sasExpiryMinutes: Option<int>)
  {
    function Credential(): SharedKeyCredential
    {
      SharedKeyCredential(accountName, accountKey)
    }

    /** Everything of a blob URL up to the blob path. */
    function ContainerUrl(): string
    {
      "https://" + accountName + ".blob.core.windows.net/" + containerName + "/"
    }

    /** No query mark enters the container URL but through the account or
        container name. */
    lemma ContainerUrlIsPlain()
      requires '?' !in accountName && '?' !in containerName
      ensures '?' !in ContainerUrl()
    {
      var host := ".blob.core.windows.net/";
      forall k | 0 <= k < |host| ensures host[k] != '?' {
      }
      assert '?' !in "https://" && '?' !in "/";
    }

    /** The public URL of a blob: `https://{account}.blob.core.windows.net/{container}/{blobPath}`. */
    function BlobUrl(blobPath: string): (r: string)
      ensures BlobPathOf(r) == Some(blobPath)
    {
      assert (ContainerUrl() + blobPath)[..|ContainerUrl()|] == ContainerUrl();
      assert (ContainerUrl() + blobPath)[|ContainerUrl()|..] == blobPath;
      ContainerUrl() + blobPath
    }

    /** The inverse of `BlobUrl`: the blob path of a URL in this container. */
    function BlobPathOf(url: string): (r: Option<string>)
      ensures r.Some? ==> url == ContainerUrl() + r.value
    {
      var base := ContainerUrl();
      if |base| <= |url| && url[..|base|] == base then
        assert url == base + url[|base|..];
        Some(url[|base|..])
      else None
    }

    /** The expiry of an upload token issued at `nowMs`. */
    function UploadExpiry(nowMs: int): (r: Option<int>)
      ensures sasExpiryMinutes.None? <==> r.None?
      ensures sasExpiryMinutes.Some? ==> r.value == nowMs + sasExpiryMinutes.value * MillisPerMinute
    {
      match sasExpiryMinutes
      case None => None
      case Some(m) => Some(nowMs + m * MillisPerMinute)
    }

    /** What the upload token for `blobPath` is signed over. */
    function UploadOptions(blobPath: string, nowMs: int): (o: SasOptions)
      ensures o.permissions == UploadPermissions && o.startsOn == nowMs
      ensures o.containerName == containerName && o.blobName == blobPath
      ensures o.expiresOn == UploadExpiry(nowMs)
    {
      SasOptions(containerName, blobPath, UploadPermissions, nowMs, UploadExpiry(nowMs))
    }

    /** `createUploadSasUrl`: the bare blob URL, and the same URL with the
        signed token as its query. Cutting the upload URL at its first `?`
        gives the blob URL back when the blob URL holds no `?`. */
    function CreateUploadSasUrl(blobPath: string, nowMs: int, sign: Signer): (r: UploadSasUrl)
      ensures BlobPathOf(r.blobUrl) == Some(blobPath)
      ensures r.uploadUrl == r.blobUrl + "?" + sign(UploadOptions(blobPath, nowMs), Credential())
      ensures '?' !in r.blobUrl ==> BeforeFirst(r.uploadUrl, '?') == r.blobUrl
    {
      var blobUrl := BlobUrl(blobPath);
      var token := sign(UploadOptions(blobPath, nowMs), Credential());
      var uploadUrl := blobUrl + "?" + token;
      QueryRoundTrip(blobUrl, token);
      UploadSasUrl(uploadUrl, blobUrl)
    }

    /** `createCharacterUploadSasUrls`: one upload URL per pose, for
        `{prefix}/front.png`, `/back.png`, `/left.png` and `/right.png`; the
        four blob URLs are pairwise distinct. */
    function CreateCharacterUploadSasUrls(prefix: string, nowMs: int, sign: Signer): (r: PerDirection<UploadSasUrl>)
      ensures forall d :: r.Get(d) == CreateUploadSasUrl(prefix + "/" + FileName(d), nowMs, sign)
      ensures forall d1, d2 :: d1 != d2 ==> r.Get(d1).blobUrl != r.Get(d2).blobUrl
    {
      var r := PerDirection(
        CreateUploadSasUrl(prefix + "/" + FileName(Front), nowMs, sign),
        CreateUploadSasUrl(prefix + "/" + FileName(Back), nowMs, sign),
        CreateUploadSasUrl(prefix + "/" + FileName(Left), nowMs, sign),
        CreateUploadSasUrl(prefix + "/" + FileName(Right), nowMs, sign));
      forall d1, d2 | d1 != d2 ensures r.Get(d1).blobUrl != r.Get(d2).blobUrl {
        PoseBlobUrlsDistinct(prefix, nowMs, sign, d1, d2);
      }
      r
    }

    /** Two poses get two different blob URLs. */
    lemma PoseBlobUrlsDistinct(prefix: string, nowMs: int, sign: Signer, d1: Direction, d2: Direction)
      requires d1 != d2
      ensures CreateUploadSasUrl(prefix + "/" + FileName(d1), nowMs, sign).blobUrl
           != CreateUploadSasUrl(prefix + "/" + FileName(d2), nowMs, sign).blobUrl
    {
      DistinctPosePaths(prefix, d1, d2);
      var u1 := CreateUploadSasUrl(prefix + "/" + FileName(d1), nowMs, sign);
      var u2 := CreateUploadSasUrl(prefix + "/" + FileName(d2), nowMs, sign);
      assert BlobPathOf(u1.blobUrl) != BlobPathOf(u2.blobUrl);
    }
  }

  /** `(url + '?' + token).split('?')[0] == url` for a URL without `?`. */
  lemma QueryRoundTrip(url: string, token: string)
    ensures '?' !in url ==> BeforeFirst(url + "?" + token, '?') == url
  {
    if '?' !in url {
      BeforeFirstOfJoin(url, '?', token);
    }
  }

  lemma AppendCancels(a: string, x: string, y: string)
    requires a + x == a + y
    ensures x == y
  {
    assert x == (a + x)[|a|..];
    assert y == (a + y)[|a|..];
  }

  lemma DistinctPosePaths(prefix: string, d1: Direction, d2: Direction)
    requires d1 != d2
    ensures prefix + "/" + FileName(d1) != prefix + "/" + FileName(d2)
  {
    if prefix + "/" + FileName(d1) == prefix + "/" + FileName(d2) {
      assert prefix + "/" + FileName(d1) == (prefix + "/") + FileName(d1);
      assert prefix + "/" + FileName(d2) == (prefix + "/") + FileName(d2);
      AppendCancels(prefix + "/", FileName(d1), FileName(d2));
      FileNameInjective(d1, d2);
    }
  }

  /** The constructor: account name and key out of the connection string
      (`""` when missing), the container name (default `character`) and the
      expiry in minutes (default `60`, read with `parseInt(..., 10)`). */
  function FromConfig(config: Config.Config): (s: AzureStorageService)
  {
    var conn := Config.GetOr(config, "AZURE_STORAGE_CONNECTION_STRING", "");
    AzureStorageService(
      ParseFromConnectionString(conn, "AccountName").GetOr(""),
      ParseFromConnectionString(conn, "AccountKey").GetOr(""),
      Config.GetOr(config, "AZURE_STORAGE_CONTAINER_NAME", DefaultContainerName),
      ParseInt10(Config.GetOr(config, "AZURE_SAS_EXPIRY_MINUTES", DefaultExpiryMinutes)))
  }

  /** Each setting on its own: a configured container name or expiry is
      taken as given (the expiry through `parseInt`), a missing one falls back
      to `character` or 60 minutes, and without a connection string the
      account name and key are empty. */
  lemma FromConfigDefaults(config: Config.Config)
    ensures var s := FromConfig(config);
      && ("AZURE_STORAGE_CONTAINER_NAME" in config ==> s.containerName == config["AZURE_STORAGE_CONTAINER_NAME"])
      && ("AZURE_STORAGE_CONTAINER_NAME" !in config ==> s.containerName == "character")
      && ("AZURE_SAS_EXPIRY_MINUTES" in config ==> s.sasExpiryMinutes == ParseInt10(config["AZURE_SAS_EXPIRY_MINUTES"]))
      && ("AZURE_SAS_EXPIRY_MINUTES" !in config ==> s.sasExpiryMinutes == Some(60))
      && ("AZURE_STORAGE_CONNECTION_STRING" !in config ==> s.accountName == "" && s.accountKey == "")
  {
    if "AZURE_SAS_EXPIRY_MINUTES" !in config {
      DefaultExpiry(config);
    }
    if "AZURE_STORAGE_CONNECTION_STRING" !in config {
      NoConnectionString(config);
    }
  }

  /** A missing expiry setting is read as 60 minutes. */
  lemma DefaultExpiry(config: Config.Config)
    requires "AZURE_SAS_EXPIRY_MINUTES" !in config
    ensures FromConfig(config).sasExpiryMinutes == Some(60)
  {
    ParseSixty();
    assert Config.GetOr(config, "AZURE_SAS_EXPIRY_MINUTES", DefaultExpiryMinutes) == "60";
  }

  /** The default expiry setting reads as 60. */
  lemma ParseSixty()
    ensures ParseInt10(DefaultExpiryMinutes) == Some(60)
  {
    assert IntToString(60) == DefaultExpiryMinutes by {
      assert NatToString(6) == "6";
    }
    ParseIntOfIntToString(60);
  }

  /** Without a connection string the account name and key are empty. */
  lemma NoConnectionString(config: Config.Config)
    requires "AZURE_STORAGE_CONNECTION_STRING" !in config
    ensures FromConfig(config).accountName == "" && FromConfig(config).accountKey == ""
  {
    assert forall i: nat :: !KeyAt("", "AccountName", i);
    assert forall i: nat :: !KeyAt("", "AccountKey", i);
  }

  /** With nothing configured: empty account name and key, container
      `character`, tokens valid for 60 minutes. */
  lemma FromEmptyConfig()
    ensures FromConfig(map[]) == AzureStorageService("", "", "character", Some(60))
  {
    FromConfigDefaults(map[]);
  }

  /** An account in the connection string is the account the URLs name. */
  lemma FromConfigReadsAccount(config: Config.Config, name: string, rest: string)
    requires "AZURE_STORAGE_CONNECTION_STRING" in config
    requires config["AZURE_STORAGE_CONNECTION_STRING"] == "AccountName=" + name + rest
    requires |name| >= 1 && ';' !in name && !IsJsSpace(name[0]) && !IsJsSpace(name[|name| - 1])
    requires rest == [] || rest[0] == ';'
    ensures FromConfig(config).accountName == name
  {
    assert "AccountName=" + name + rest == "AccountName" + "=" + name + rest;
    ParseLeadingEntry("AccountName", name, rest);
  }
}
