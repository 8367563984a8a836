/** The publish payload sent to the release backend: one record per release
    artifact found on disk, and the payload around them
    (scripts/ci/build_backend_payload.py). Hashing, file sizes, file
    contents and directory searches are inputs here, not computed. */
module BackendPayload {
  import opened Results
  import opened JsonValues
  import PyText
  import StoragePaths
  import ArtifactNaming

  /** What the script reads from a file: its SHA-256 digest (hex), its size in
      bytes and its text. */
  datatype Contents = Contents(sha256: string, size: nat, text: string)

  /** A path handed to `build_asset`: its final component, whether it exists,
      and what it holds. */
  datatype ArtifactFile = ArtifactFile(name: string, present: bool, contents: Contents)

  /** A file that was handed over and exists. */
  predicate Exists(file: Option<ArtifactFile>) {
    file.Some? && file.value.present
  }

  /** The stripped text of an existing signature file, "" otherwise. */
  function SignatureText(signature: Option<ArtifactFile>): string {
    if Exists(signature) then PyText.Strip(signature.value.contents.text) else ""
  }

  /** The `extra` object of an asset: the caller's own entries, and a CDN URL
      and the signature text under keys the caller did not supply. */
  function ExtraOf(extra: Record, cdnUrl: string, sigText: string): Record {
    // in a map union the right operand wins, so the caller's entries win
    (if sigText != "" then map["signature_ed25519" := JStr(sigText)] else map[])
    + (if cdnUrl != "" then map["cdn_url" := JStr(cdnUrl)] else map[])
    + extra
  }

  /** The merged `extra` holds the caller's entries unchanged, and the CDN URL
      and the signature text only under keys the caller left free. */
  lemma ExtraOfEntries(extra: Record, cdnUrl: string, sigText: string)
    ensures var m := ExtraOf(extra, cdnUrl, sigText);
      && m.Keys == extra.Keys
                   + (if cdnUrl != "" then {"cdn_url"} else {})
                   + (if sigText != "" then {"signature_ed25519"} else {})
      && (forall k :: k in extra ==> m[k] == extra[k])
      && (cdnUrl != "" && "cdn_url" !in extra ==> m["cdn_url"] == JStr(cdnUrl))
      && (sigText != "" && "signature_ed25519" !in extra ==> m["signature_ed25519"] == JStr(sigText))
  {
  }

  /** The fields of an asset record. `signaturePath` is None when no signature
      file exists; `extra` is the merged `extra` object, left out of the
      record when it is empty. */
  datatype Asset = Asset(platform: string, kind: string, spacesPath: string, sha256: string,
                         sizeBytes: nat, mimeType: string, signaturePath: Option<string>,
                         extra: Record)

  /** The asset `build_asset` returns, stated through the storage scheme:
      paths are those of the stable channel. */
  function AssetOf(source: Option<ArtifactFile>, version: string, platform: string, kind: string,
                   cdnBase: string, signature: Option<ArtifactFile>, mimeType: string,
                   extra: Record): Option<Asset>
  {
    if !Exists(source) then
      None
    else
      var file := source.value;
      Some(Asset(platform, kind, StoragePaths.StoragePath(version, file.name, "stable"),
                 file.contents.sha256, file.contents.size, mimeType,
                 if Exists(signature)
                 then Some(StoragePaths.StoragePath(version, signature.value.name, "stable"))
                 else None,
                 ExtraOf(extra, StoragePaths.CdnUrl(version, file.name, cdnBase, "stable"),
                         SignatureText(signature))))
  }

  /** The six entries every asset record has. */
  function AssetFields(a: Asset): Record {
    map[
      "platform" := JStr(a.platform),
      "kind" := JStr(a.kind),
      "spaces_path" := JStr(a.spacesPath),
      "checksum_sha256" := JStr(a.sha256),
      "size_bytes" := JNum(a.sizeBytes),
      "mime_type" := JStr(a.mimeType)
    ]
  }

  /** The six entries depend only on the six fields they hold. */
  lemma AssetFieldsAgree(a: Asset, b: Asset)
    requires a.platform == b.platform && a.kind == b.kind && a.spacesPath == b.spacesPath
    requires a.sha256 == b.sha256 && a.sizeBytes == b.sizeBytes && a.mimeType == b.mimeType
    ensures AssetFields(a) == AssetFields(b)
  {
  }

  /** The six entries and the signature path, when there is one. */
  function SignedFields(a: Asset): Record {
    if a.signaturePath.Some? then AssetFields(a)["signature_path" := JStr(a.signaturePath.value)] else AssetFields(a)
  }

  /** So do the six entries and the signature path, with that one field more. */
  lemma SignedFieldsAgree(a: Asset, b: Asset)
    requires a.platform == b.platform && a.kind == b.kind && a.spacesPath == b.spacesPath
    requires a.sha256 == b.sha256 && a.sizeBytes == b.sizeBytes && a.mimeType == b.mimeType
    requires a.signaturePath == b.signaturePath
    ensures SignedFields(a) == SignedFields(b)
  {
    AssetFieldsAgree(a, b);
  }

  /** The last step of the rendering: `extra` is added when it is non-empty. */
  lemma ExtraRendered(signed: Record, a: Asset)
    requires signed == SignedFields(a)
    ensures AssetJson(a) == if a.extra != map[] then signed["extra" := JObj(a.extra)] else signed
  {
  }

  /** An asset as the JSON object that is sent: the six fixed entries, then
      the signature path and `extra`, each only when there is one. */
  function AssetJson(a: Asset): Record {
    if a.extra != map[] then SignedFields(a)["extra" := JObj(a.extra)] else SignedFields(a)
  }

  /** The JSON object of an optional asset. */
  function RecordOf(asset: Option<Asset>): Option<Record> {
    if asset.Some? then Some(AssetJson(asset.value)) else None
  }

  /** The `extra` entries of an asset record, empty when it has none. */
  function ExtraEntries(record: Record): Record {
    if "extra" in record && record["extra"].JObj? then record["extra"].fields else map[]
  }

  /** The keys of an asset's JSON object and what each one holds. */
  lemma AssetJsonFields(a: Asset)
    ensures var r := AssetJson(a);
      && r.Keys == {"platform", "kind", "spaces_path", "checksum_sha256", "size_bytes", "mime_type"}
                   + (if a.signaturePath.Some? then {"signature_path"} else {})
                   + (if a.extra != map[] then {"extra"} else {})
      && r["platform"] == JStr(a.platform) && r["kind"] == JStr(a.kind)
      && r["spaces_path"] == JStr(a.spacesPath)
      && r["checksum_sha256"] == JStr(a.sha256) && r["size_bytes"] == JNum(a.sizeBytes)
      && r["mime_type"] == JStr(a.mimeType)
      && (a.signaturePath.Some? ==> r["signature_path"] == JStr(a.signaturePath.value))
      && ExtraEntries(r) == a.extra
  {
    var r := AssetJson(a);
    if a.extra != map[] {
      assert r["extra"] == JObj(a.extra);
    } else {
      assert "extra" !in r;
    }
  }

  /** Adding the CDN URL to the caller's entries unless the caller supplied one. */
  lemma ExtraWithCdnUrl(extra: Record, cdnUrl: string)
    ensures ExtraOf(extra, cdnUrl, "")
         == if cdnUrl != "" && "cdn_url" !in extra then extra["cdn_url" := JStr(cdnUrl)] else extra
  {
  }

  /** Then adding the signature text unless that key is already taken. */
  lemma ExtraWithSignature(extra: Record, cdnUrl: string, sigText: string)
    ensures var m := ExtraOf(extra, cdnUrl, "");
      ExtraOf(extra, cdnUrl, sigText)
      == if sigText != "" && "signature_ed25519" !in m then m["signature_ed25519" := JStr(sigText)] else m
  {
  }

  /** `build_asset`: builds the record and its `extra` object step by step. */
  method BuildAsset(source: Option<ArtifactFile>, version: string, platform: string, kind: string,
                    cdnBase: string, signature: Option<ArtifactFile>, mimeType: string,
                    extra: Record) returns (asset: Option<Record>)
    ensures asset == RecordOf(AssetOf(source, version, platform, kind, cdnBase, signature, mimeType, extra))
  {
    if source.None? || !source.value.present {
      return None;
    }
    var file := source.value;
    var spacesPath := "releases/v" + version + "/" + file.name;
    var cdnUrl := if cdnBase != "" then cdnBase + "/releases/v" + version + "/" + file.name else "";
    StoragePaths.StablePathFormat(version, file.name);
    assert cdnUrl == StoragePaths.CdnUrl(version, file.name, cdnBase, "stable");

    var record: Record := map[
      "platform" := JStr(platform),
      "kind" := JStr(kind),
      "spaces_path" := JStr(spacesPath),
      "checksum_sha256" := JStr(file.contents.sha256),
      "size_bytes" := JNum(file.contents.size),
      "mime_type" := JStr(mimeType)
    ];
    // the asset as far as the record shows it so far
    ghost var stage := Asset(platform, kind, spacesPath, file.contents.sha256, file.contents.size, mimeType,
                             None, map[]);
    assert record == SignedFields(stage);

    // a copy of the caller's map; the caller's own map is a value and stays as it was
    var extraPayload := extra;
    if cdnUrl != "" && "cdn_url" !in extraPayload {
      extraPayload := extraPayload["cdn_url" := JStr(cdnUrl)];
    }

    if signature.Some? && signature.value.present {
      StoragePaths.StablePathFormat(version, signature.value.name);
      var sigPath := "releases/v" + version + "/" + signature.value.name;
      ghost var unsigned := stage;
      record := record["signature_path" := JStr(sigPath)];
      stage := stage.(signaturePath := Some(sigPath));
      AssetFieldsAgree(unsigned, stage);
      assert record == SignedFields(stage);
      var sigText := PyText.Strip(signature.value.contents.text);
      if sigText != "" && "signature_ed25519" !in extraPayload {
        extraPayload := extraPayload["signature_ed25519" := JStr(sigText)];
      }
    }

    // the record is the JSON form of the asset made of the values computed above ...
    ghost var built := stage.(extra := extraPayload);
    SignedFieldsAgree(stage, built);
    ExtraRendered(record, built);
    if extraPayload != map[] {
      record := record["extra" := JObj(extraPayload)];
    }
    // ... and that asset is the specification's, field by field
    ExtraWithCdnUrl(extra, cdnUrl);
    ExtraWithSignature(extra, cdnUrl, SignatureText(signature));
    assert built == AssetOf(source, version, platform, kind, cdnBase, signature, mimeType, extra).value;
    return Some(record);
  }


  /** There is an asset exactly when the source was handed over and exists. */
  lemma AssetIffSource(source: Option<ArtifactFile>, version: string, platform: string, kind: string,
                       cdnBase: string, signature: Option<ArtifactFile>, mimeType: string, extra: Record)
    ensures AssetOf(source, version, platform, kind, cdnBase, signature, mimeType, extra).Some?
        <==> source.Some? && source.value.present
  {
  }

  /** An asset is stored at the stable channel's path whatever channel is
      being published, and its signature at the stable path of the signature file. */
  lemma AssetStoragePaths(source: Option<ArtifactFile>, version: string, platform: string, kind: string,
                          cdnBase: string, signature: Option<ArtifactFile>, mimeType: string, extra: Record,
                          channel: string)
    requires Exists(source)
    ensures var a := AssetOf(source, version, platform, kind, cdnBase, signature, mimeType, extra).value;
      && a.spacesPath == StoragePaths.StoragePath(version, source.value.name, "stable")
      && (StoragePaths.ChannelPrefix(channel) != "releases" ==>
            a.spacesPath != StoragePaths.StoragePath(version, source.value.name, channel))
      && (a.signaturePath.Some? <==> Exists(signature))
      && (Exists(signature) ==>
            a.signaturePath.value == StoragePaths.StoragePath(version, signature.value.name, "stable"))
      && (Exists(signature) && signature.value.name == ArtifactNaming.SignatureName(source.value.name) ==>
            a.signaturePath.value == StoragePaths.SignaturePath(version, source.value.name, "stable"))
  {
    if StoragePaths.ChannelPrefix(channel) != "releases" {
      assert StoragePaths.ChannelPrefix("stable") == "releases";
      StoragePaths.ChannelsAreIsolated(version, source.value.name, "stable", version, source.value.name, channel);
    }
    StoragePaths.SignatureBesideArtifact(version, source.value.name, "stable");
  }

  /** The asset has an `extra` object exactly when there is something to put
      there: caller entries, a CDN URL, or a signature text that is not all
      whitespace; the caller's entries are kept as given. */
  lemma {:induction false} AssetExtraPresent(source: Option<ArtifactFile>, version: string, platform: string,
                                             kind: string, cdnBase: string, signature: Option<ArtifactFile>,
                                             mimeType: string, extra: Record)
    requires Exists(source)
    ensures var a := AssetOf(source, version, platform, kind, cdnBase, signature, mimeType, extra).value;
      && (a.extra != map[] <==>
            extra != map[] || cdnBase != ""
            || (Exists(signature) && !PyText.Blank(signature.value.contents.text)))
      && (forall k :: k in extra ==> k in a.extra && a.extra[k] == extra[k])
  {
    var cdnUrl := StoragePaths.CdnUrl(version, source.value.name, cdnBase, "stable");
    ExtraOfEntries(extra, cdnUrl, SignatureText(signature));
    if Exists(signature) {
      PyText.StripEmptyIffBlank(signature.value.contents.text);
    }
  }

  /** `cdn_url` is set when a CDN base is configured and never replaces the caller's own. */
  lemma AssetCdnUrl(source: Option<ArtifactFile>, version: string, platform: string, kind: string,
                    cdnBase: string, signature: Option<ArtifactFile>, mimeType: string, extra: Record)
    requires Exists(source)
    ensures var e := AssetOf(source, version, platform, kind, cdnBase, signature, mimeType, extra).value.extra;
      && ("cdn_url" in e <==> "cdn_url" in extra || cdnBase != "")
      && ("cdn_url" in extra ==> e["cdn_url"] == extra["cdn_url"])
      && ("cdn_url" !in extra && cdnBase != "" ==>
            e["cdn_url"] == JStr(cdnBase + "/" + StoragePaths.StoragePath(version, source.value.name, "stable")))
  {
    ExtraOfEntries(extra, StoragePaths.CdnUrl(version, source.value.name, cdnBase, "stable"), SignatureText(signature));
  }

  /** `signature_ed25519` holds the stripped signature text when the signature
      file exists and is not all whitespace, and never replaces the caller's own. */
  lemma {:induction false} AssetSignatureText(source: Option<ArtifactFile>, version: string, platform: string,
                                              kind: string, cdnBase: string, signature: Option<ArtifactFile>,
                                              mimeType: string, extra: Record)
    requires Exists(source)
    ensures var e := AssetOf(source, version, platform, kind, cdnBase, signature, mimeType, extra).value.extra;
      && ("signature_ed25519" in e <==>
            "signature_ed25519" in extra || (Exists(signature) && !PyText.Blank(signature.value.contents.text)))
      && ("signature_ed25519" in extra ==> e["signature_ed25519"] == extra["signature_ed25519"])
      && ("signature_ed25519" !in extra && Exists(signature) && !PyText.Blank(signature.value.contents.text) ==>
            e["signature_ed25519"] == JStr(PyText.Strip(signature.value.contents.text)))
  {
    ExtraOfEntries(extra, StoragePaths.CdnUrl(version, source.value.name, cdnBase, "stable"), SignatureText(signature));
    if Exists(signature) {
      PyText.StripEmptyIffBlank(signature.value.contents.text);
    }
  }

  // ---------------------------------------------------------------------------
  // The payload (`main`)
  // ---------------------------------------------------------------------------

  /** Why no payload is written; the script exits with an error in each case. */
  datatype PayloadError =
    | ManifestMissing    // the manifest payload file does not exist
    | ReleasesMissing    // the releases manifest file does not exist
    | MalformedReleases  // the releases manifest is not shaped as expected, and a lookup raises
    | NoAssets           // no release artifact was found: an empty payload is refused

  /** The command-line options the payload depends on. */
  datatype Options = Options(version: string, channel: string, buildSha: string, cdnBase: string)

  /** What the script finds on disk: the two decoded JSON files (None when a
      file is missing) and the regular files under each artifact root, by name. */
  datatype Disk = Disk(manifest: Option<Json>, releases: Option<Json>,
                       macFiles: map<string, Contents>, windowsFiles: map<string, Contents>)

  /** `find_first`: the file of that name under a root, if there is one. */
  function FindFirst(files: map<string, Contents>, name: string): (found: Option<ArtifactFile>)
    ensures found.Some? <==> name in files
    // what is found exists, carries the name searched for, and has that file's contents
    ensures found.Some? ==> Exists(found) && found.value.name == name && found.value.contents == files[name]
  {
    if name in files then Some(ArtifactFile(name, true, files[name])) else None
  }

  /** The macOS updater archive searched for is the one the naming scheme gives for aarch64. */
  function MacArchiveSearchName(version: string): (name: string)
    ensures ArtifactNaming.UpdaterArchiveName(version, "macos", "aarch64") == Ok(name)
  {
    var name := "Rostoc-" + version + "-darwin-aarch64.app.tar.gz";
    assert "Rostoc-" + version + "-darwin-" + "aarch64" + ".app.tar.gz" == name;
    name
  }

  /** ... and its signature is the naming scheme's signature of that archive. */
  function MacSignatureSearchName(version: string): (name: string)
    ensures name == ArtifactNaming.SignatureName(MacArchiveSearchName(version))
  {
    var name := "Rostoc-" + version + "-darwin-aarch64.app.tar.gz.sig";
    assert MacArchiveSearchName(version) + ".sig" == name;
    name
  }

  /** The macOS disk image searched for is the naming scheme's aarch64 installer. */
  function MacDmgSearchName(version: string): (name: string)
    ensures ArtifactNaming.InstallerName(version, "macos", "aarch64") == Ok(name)
  {
    var name := "Rostoc_" + version + "_aarch64.dmg";
    assert "Rostoc_" + version + "_" + "aarch64" + ".dmg" == name;
    name
  }

  /** The Windows installer searched for; see WindowsSearchNameNotProduced. */
  function WindowsInstallerSearchName(version: string): string {
    "Rostoc-" + version + "-windows-x86_64.msi"
  }

  /** Its signature is the naming scheme's signature of that installer name. */
  function WindowsSignatureSearchName(version: string): (name: string)
    ensures name == ArtifactNaming.SignatureName(WindowsInstallerSearchName(version))
  {
    var name := "Rostoc-" + version + "-windows-x86_64.msi.sig";
    assert WindowsInstallerSearchName(version) + ".sig" == name;
    name
  }

  /** No architecture makes the naming scheme produce the Windows installer
      name that is searched for: x86_64 is normalised to x64, so an installer
      named by the scheme is never picked up. */
  lemma {:induction false} WindowsSearchNameNotProduced(version: string, arch: string)
    ensures ArtifactNaming.InstallerName(version, "windows", arch) != Ok(WindowsInstallerSearchName(version))
  {
    var front := "Rostoc-" + version + "-windows-";
    var normArch := ArtifactNaming.WindowsArch(arch);
    var produced := front + normArch + ".msi";
    var searched := WindowsInstallerSearchName(version);
    assert searched == front + "x86_64" + ".msi";
    if |normArch| == 6 {
      assert produced[|front|..|front| + 6] == normArch;
      assert searched[|front|..|front| + 6] == "x86_64";
    } else {
      assert |produced| != |searched|;
    }
  }

  /** `dict.get` on a decoded value, failing when the value is not an object. */
  function Get(obj: Json, key: string, default: Json): (r: Result<Json, PayloadError>)
    ensures r.Ok? <==> obj.JObj?
    ensures r.Ok? ==> r.value == (if key in obj.fields then obj.fields[key] else default)
    ensures r.Err? ==> r.error == MalformedReleases
  {
    match DictGet(obj, key, default)
    case Some(v) => Ok(v)
    case None => Err(MalformedReleases)
  }

  /** `(releases_data.get("releases") or [{}])[0]`. */
  function ReleaseEntry(releases: Json): (r: Result<Json, PayloadError>)
    ensures r.Err? ==> r.error == MalformedReleases
    ensures !releases.JObj? ==> r == Err(MalformedReleases)
    ensures releases.JObj? && "releases" in releases.fields && releases.fields["releases"].JArr?
            && releases.fields["releases"].items != [] ==>
              r == Ok(releases.fields["releases"].items[0])
    ensures releases.JObj? && ("releases" !in releases.fields || !Truthy(releases.fields["releases"])) ==>
              r == Ok(JObj(map[]))
    // a truthy `releases` can be indexed only when it is a list or a string
    ensures r.Ok? <==> releases.JObj? && ("releases" in releases.fields && Truthy(releases.fields["releases"])
                                          ==> releases.fields["releases"].JArr? || releases.fields["releases"].JStr?)
    // indexing a string gives its first character
    ensures releases.JObj? && "releases" in releases.fields && releases.fields["releases"].JStr?
            && releases.fields["releases"].s != "" ==>
              r == Ok(JStr([releases.fields["releases"].s[0]]))
  {
    var list :- Get(releases, "releases", JNull);
    match Or(list, JArr([JObj(map[])]))
    case JArr(items) => Ok(items[0])
    case JStr(text) => Ok(JStr([text[0]]))   // a one-character string, on which the next lookup fails
    case _ => Err(MalformedReleases)
  }

  /** `(release_entry.get("platforms", {}) or {}).get(key, {})`. */
  function PlatformEntry(entry: Json, key: string): (r: Result<Json, PayloadError>)
    ensures r.Err? ==> r.error == MalformedReleases
    // a release entry that is not an object, or a truthy `platforms` that is not one, fails
    ensures r.Ok? <==> entry.JObj? && ("platforms" in entry.fields && Truthy(entry.fields["platforms"])
                                       ==> entry.fields["platforms"].JObj?)
    // no platforms, or falsy ones: the empty default
    ensures entry.JObj? && ("platforms" !in entry.fields || !Truthy(entry.fields["platforms"])) ==>
              r == Ok(JObj(map[]))
    // a platforms object: the entry under the key, or the empty default
    ensures entry.JObj? && "platforms" in entry.fields && entry.fields["platforms"].JObj? ==>
              var platforms := entry.fields["platforms"].fields;
              r == Ok(if key in platforms then platforms[key] else JObj(map[]))
  {
    var platforms :- Get(entry, "platforms", JObj(map[]));
    Get(Or(platforms, JObj(map[])), key, JObj(map[]))
  }

  /** The `extra` of the disk image: its notarisation details, null where missing. */
  function DmgExtra(darwin: Json): (r: Result<Record, PayloadError>)
    ensures r.Err? ==> r.error == MalformedReleases
    ensures r.Ok? ==> (r.value.Keys == {"artifact", "notarization_status", "submission_id"}
                       && r.value["artifact"] == JStr("installer"))
    // with an installer object, both details are copied from it, null where it has none
    ensures darwin.JObj? && Get(darwin, "installer", JObj(map[])).value.JObj? ==>
      var meta := Get(darwin, "installer", JObj(map[])).value.fields;
      && r.Ok?
      && r.value["notarization_status"] == (if "notarization_status" in meta then meta["notarization_status"] else JNull)
      && r.value["submission_id"] == (if "submission_id" in meta then meta["submission_id"] else JNull)
    // anything other than an object where the details are looked up is an error
    ensures r.Ok? <==> darwin.JObj? && Get(darwin, "installer", JObj(map[])).value.JObj?
  {
    var meta :- Get(darwin, "installer", JObj(map[]));
    // both `.get` calls on the installer details fail alike when they are not an object
    if !meta.JObj? then
      Err(MalformedReleases)
    else
      var status := DictGet(meta, "notarization_status", JNull).value;
      var submission := DictGet(meta, "submission_id", JNull).value;
      Ok(map["artifact" := JStr("installer"), "notarization_status" := status, "submission_id" := submission])
  }

  /** The `extra` of the Windows installer: `artifact: installer`, updated
      with the installer metadata of the release entry, which wins. */
  function WindowsExtra(windows: Json): (r: Result<Record, PayloadError>)
    ensures r.Err? ==> r.error == MalformedReleases
    ensures r.Ok? ==> "artifact" in r.value
    // metadata that is absent or falsy is skipped; truthy metadata must be an object
    ensures r.Ok? <==> Get(windows, "installer", JObj(map[])).Ok?
                       && (var meta := Get(windows, "installer", JObj(map[])).value; !Truthy(meta) || meta.JObj?)
    ensures r.Ok? && !Truthy(Get(windows, "installer", JObj(map[])).value) ==>
              r.value == map["artifact" := JStr("installer")]
    ensures r.Ok? && Get(windows, "installer", JObj(map[])).value.JObj? ==>
      var meta := Get(windows, "installer", JObj(map[])).value.fields;
      && r.value.Keys == meta.Keys + {"artifact"}
      && (forall k :: k in meta ==> r.value[k] == meta[k])
      && ("artifact" !in meta ==> r.value["artifact"] == JStr("installer"))
  {
    var meta :- Get(windows, "installer", JObj(map[]));
    if !Truthy(meta) then
      Ok(map["artifact" := JStr("installer")])
    else if meta.JObj? then
      Ok(map["artifact" := JStr("installer")] + meta.fields)
    else
      Err(MalformedReleases)
  }

  /** The macOS updater archive and its signature. */
  function MacArchiveAsset(options: Options, disk: Disk): Option<Asset> {
    AssetOf(FindFirst(disk.macFiles, MacArchiveSearchName(options.version)), options.version,
            "macos", "archive", options.cdnBase,
            FindFirst(disk.macFiles, MacSignatureSearchName(options.version)),
            "application/gzip", map["artifact" := JStr("updater")])
  }

  /** The macOS disk image, looked at only when one was found. */
  function MacDmgAsset(options: Options, disk: Disk, darwin: Json): Result<Option<Asset>, PayloadError> {
    var dmg := FindFirst(disk.macFiles, MacDmgSearchName(options.version));
    if dmg.None? then
      Ok(None)
    else
      var extra :- DmgExtra(darwin);
      Ok(AssetOf(dmg, options.version, "macos", "installer", options.cdnBase, None,
                 "application/x-apple-diskimage", extra))
  }

  /** The Windows installer and its signature. */
  function WindowsAsset(options: Options, disk: Disk, windows: Json): Result<Option<Asset>, PayloadError> {
    var extra :- WindowsExtra(windows);
    Ok(AssetOf(FindFirst(disk.windowsFiles, WindowsInstallerSearchName(options.version)), options.version,
               "windows", "installer", options.cdnBase,
               FindFirst(disk.windowsFiles, WindowsSignatureSearchName(options.version)),
               "application/x-msi", extra))
  }

  /** A built asset as one element of the `assets` list. */
  function Present(record: Option<Record>): seq<Json> {
    if record.Some? then [JObj(record.value)] else []
  }

  /** The payload object around the assets. */
  function PayloadRecord(options: Options, manifest: Json, entry: Json, assets: seq<Json>): Json {
    JObj(map[
      "channel" := JStr(if options.channel != "" then options.channel else "stable"),
      "version" := JStr(options.version),
      "status" := JStr("live"),
      "build_sha" := JStr(options.buildSha),
      "manifest_payload" := manifest,
      "metadata" := JObj(map["releases_entry" := entry]),
      "assets" := JArr(assets)
    ])
  }

  /** The `assets` list: the macOS archive, the macOS disk image and the
      Windows installer, in that order, each one only when it was built. */
  function AssetsOf(options: Options, disk: Disk, darwin: Json, windows: Json): (r: Result<seq<Json>, PayloadError>)
    ensures r.Err? ==> r.error == MalformedReleases
    // the disk image's metadata is read only when the disk image was found
    ensures r.Ok? <==> (MacDmgSearchName(options.version) !in disk.macFiles || DmgExtra(darwin).Ok?)
                       && WindowsExtra(windows).Ok?
  {
    var dmg :- MacDmgAsset(options, disk, darwin);
    var win :- WindowsAsset(options, disk, windows);
    Ok(Present(RecordOf(MacArchiveAsset(options, disk))) + Present(RecordOf(dmg)) + Present(RecordOf(win)))
  }

  /** The payload `main` writes, or why it writes none. */
  function PayloadOf(options: Options, disk: Disk): Result<Json, PayloadError> {
    if disk.manifest.None? then
      Err(ManifestMissing)
    else if disk.releases.None? then
      Err(ReleasesMissing)
    else
      var entry :- ReleaseEntry(disk.releases.value);
      var darwin :- PlatformEntry(entry, "darwin-aarch64");
      var windows :- PlatformEntry(entry, "windows-x86_64");
      var assets :- AssetsOf(options, disk, darwin, windows);
      if assets == [] then Err(NoAssets)
      else Ok(PayloadRecord(options, disk.manifest.value, entry, assets))
  }

  /** The first block of `main`: the macOS updater archive and its signature,
      appended to the assets list when it was built. */
  method AddMacArchive(options: Options, disk: Disk, assets: seq<Json>) returns (extended: seq<Json>)
    ensures extended == assets + Present(RecordOf(MacArchiveAsset(options, disk)))
  {
    var version := options.version;
    var macArchive := FindFirst(disk.macFiles, MacArchiveSearchName(version));
    var macSignature := FindFirst(disk.macFiles, MacSignatureSearchName(version));
    var asset := BuildAsset(macArchive, version, "macos", "archive", options.cdnBase, macSignature,
                            "application/gzip", map["artifact" := JStr("updater")]);
    extended := assets;
    if asset.Some? {
      extended := extended + [JObj(asset.value)];
    }
  }

  /** The second block: the macOS disk image with its notarisation details,
      looked at only when one was found. */
  method AddMacDmg(options: Options, disk: Disk, darwinEntry: Json, assets: seq<Json>)
    returns (r: Result<seq<Json>, PayloadError>)
    ensures r.Ok? <==> MacDmgAsset(options, disk, darwinEntry).Ok?
    ensures r.Ok? ==> r.value == assets + Present(RecordOf(MacDmgAsset(options, disk, darwinEntry).value))
    ensures r.Err? ==> r.error == MacDmgAsset(options, disk, darwinEntry).error
  {
    var version := options.version;
    var macDmg := FindFirst(disk.macFiles, MacDmgSearchName(version));
    if macDmg.None? {
      return Ok(assets);
    }
    var extra :- DmgExtra(darwinEntry);
    var dmgAsset := BuildAsset(macDmg, version, "macos", "installer", options.cdnBase, None,
                               "application/x-apple-diskimage", extra);
    if dmgAsset.Some? {
      return Ok(assets + [JObj(dmgAsset.value)]);
    }
    return Ok(assets);
  }

  /** The third block: `artifact: installer` updated with the release entry's
      installer metadata, then the Windows installer and its signature. */
  method AddWindowsInstaller(options: Options, disk: Disk, windowsEntry: Json, assets: seq<Json>)
    returns (r: Result<seq<Json>, PayloadError>)
    ensures r.Ok? <==> WindowsAsset(options, disk, windowsEntry).Ok?
    ensures r.Ok? ==> r.value == assets + Present(RecordOf(WindowsAsset(options, disk, windowsEntry).value))
    ensures r.Err? ==> r.error == WindowsAsset(options, disk, windowsEntry).error
  {
    var version := options.version;
    var winInstaller := FindFirst(disk.windowsFiles, WindowsInstallerSearchName(version));
    var winSignature := FindFirst(disk.windowsFiles, WindowsSignatureSearchName(version));
    var windowsExtra: Record := map["artifact" := JStr("installer")];
    var installerMeta :- Get(windowsEntry, "installer", JObj(map[]));
    if Truthy(installerMeta) {
      if !installerMeta.JObj? {
        return Err(MalformedReleases);
      }
      windowsExtra := windowsExtra + installerMeta.fields;
    }
    assert WindowsExtra(windowsEntry) == Ok(windowsExtra);
    var winAsset := BuildAsset(winInstaller, version, "windows", "installer", options.cdnBase, winSignature,
                               "application/x-msi", windowsExtra);
    if winAsset.Some? {
      return Ok(assets + [JObj(winAsset.value)]);
    }
    return Ok(assets);
  }

  /** The three blocks of `main` in turn, starting from an empty list. */
  method CollectAssets(options: Options, disk: Disk, darwinEntry: Json, windowsEntry: Json)
    returns (r: Result<seq<Json>, PayloadError>)
    ensures r == AssetsOf(options, disk, darwinEntry, windowsEntry)
  {
    var assets := AddMacArchive(options, disk, []);
    assert assets == Present(RecordOf(MacArchiveAsset(options, disk)));
    assets :- AddMacDmg(options, disk, darwinEntry, assets);
    assets :- AddWindowsInstaller(options, disk, windowsEntry, assets);
    return Ok(assets);
  }

  /** `main`: reads the release entry, collects the assets, refuses an empty
      list and wraps the rest into the payload. */
  method BuildPayload(options: Options, disk: Disk) returns (r: Result<Json, PayloadError>)
    ensures r == PayloadOf(options, disk)
  {
    if disk.manifest.None? {
      return Err(ManifestMissing);
    }
    if disk.releases.None? {
      return Err(ReleasesMissing);
    }
    var manifestPayload := disk.manifest.value;
    var releaseEntry :- ReleaseEntry(disk.releases.value);
    var darwinEntry :- PlatformEntry(releaseEntry, "darwin-aarch64");
    // the second lookup reads the same `platforms` as the first, so it succeeds too
    var windowsEntry := PlatformEntry(releaseEntry, "windows-x86_64").value;
    var assets :- CollectAssets(options, disk, darwinEntry, windowsEntry);
    if assets == [] {
      return Err(NoAssets);
    }
    return Ok(PayloadRecord(options, manifestPayload, releaseEntry, assets));
  }

  // ---------------------------------------------------------------------------
  // Properties of the payload
  // ---------------------------------------------------------------------------

  /** Which of the three assets a record is: 0 the macOS archive, 1 the macOS
      disk image, 2 the Windows installer, 3 anything else. */
  function Slot(asset: Json): nat {
    if asset.JObj? && "platform" in asset.fields && "kind" in asset.fields then
      var platform, kind := asset.fields["platform"], asset.fields["kind"];
      if platform == JStr("macos") && kind == JStr("archive") then 0
      else if platform == JStr("macos") && kind == JStr("installer") then 1
      else if platform == JStr("windows") && kind == JStr("installer") then 2
      else 3
    else 3
  }

  /** The JSON object of an asset sits in the slot of its platform and kind. */
  lemma AssetJsonSlot(a: Asset)
    ensures a.platform == "macos" && a.kind == "archive" ==> Slot(JObj(AssetJson(a))) == 0
    ensures a.platform == "macos" && a.kind == "installer" ==> Slot(JObj(AssetJson(a))) == 1
    ensures a.platform == "windows" && a.kind == "installer" ==> Slot(JObj(AssetJson(a))) == 2
  {
    AssetJsonFields(a);
  }

  /** Three optional assets, one per slot, listed in slot order. */
  lemma {:induction false} SlotsInOrder(a: Option<Record>, b: Option<Record>, c: Option<Record>)
    requires a.Some? ==> Slot(JObj(a.value)) == 0
    requires b.Some? ==> Slot(JObj(b.value)) == 1
    requires c.Some? ==> Slot(JObj(c.value)) == 2
    ensures var items := Present(a) + Present(b) + Present(c);
      && |items| <= 3
      && (forall i :: 0 <= i < |items| ==> Slot(items[i]) < 3)
      && (forall i, j :: 0 <= i < j < |items| ==> Slot(items[i]) < Slot(items[j]))
      && ((exists i :: 0 <= i < |items| && Slot(items[i]) == 0) <==> a.Some?)
      && ((exists i :: 0 <= i < |items| && Slot(items[i]) == 1) <==> b.Some?)
      && ((exists i :: 0 <= i < |items| && Slot(items[i]) == 2) <==> c.Some?)
  {
    var items := Present(a) + Present(b) + Present(c);
    // the slot of each element is fixed by which of a, b, c it came from
    forall i | 0 <= i < |items|
      ensures Slot(items[i]) == if i < |Present(a)| then 0
                                else if i < |Present(a)| + |Present(b)| then 1 else 2
    {
      if i >= |Present(a)| + |Present(b)| {
        assert items[i] == Present(c)[i - |Present(a)| - |Present(b)|];
      } else if i >= |Present(a)| {
        assert items[i] == Present(b)[i - |Present(a)|];
      }
    }
    if a.Some? { assert Slot(items[0]) == 0; }
    if b.Some? { assert Slot(items[|Present(a)|]) == 1; }
    if c.Some? { assert Slot(items[|Present(a)| + |Present(b)|]) == 2; }
  }

  /** The macOS archive asset exists when its file was found, in slot 0. */
  lemma MacArchiveSlot(options: Options, disk: Disk)
    ensures var mac := RecordOf(MacArchiveAsset(options, disk));
      && (mac.Some? <==> MacArchiveSearchName(options.version) in disk.macFiles)
      && (mac.Some? ==> Slot(JObj(mac.value)) == 0)
  {
    if MacArchiveAsset(options, disk).Some? {
      AssetJsonSlot(MacArchiveAsset(options, disk).value);
    }
  }

  /** The disk image asset exists when its file was found, in slot 1. */
  lemma MacDmgSlot(options: Options, disk: Disk, darwin: Json)
    requires MacDmgAsset(options, disk, darwin).Ok?
    ensures var dmg := RecordOf(MacDmgAsset(options, disk, darwin).value);
      && (dmg.Some? <==> MacDmgSearchName(options.version) in disk.macFiles)
      && (dmg.Some? ==> Slot(JObj(dmg.value)) == 1)
  {
    var dmg := MacDmgAsset(options, disk, darwin).value;
    if dmg.Some? {
      AssetJsonSlot(dmg.value);
    }
  }

  /** The Windows installer asset exists when its file was found, in slot 2. */
  lemma WindowsSlot(options: Options, disk: Disk, windows: Json)
    requires WindowsAsset(options, disk, windows).Ok?
    ensures var win := RecordOf(WindowsAsset(options, disk, windows).value);
      && (win.Some? <==> WindowsInstallerSearchName(options.version) in disk.windowsFiles)
      && (win.Some? ==> Slot(JObj(win.value)) == 2)
  {
    var win := WindowsAsset(options, disk, windows).value;
    if win.Some? {
      AssetJsonSlot(win.value);
    }
  }

  /** The assets list, when built, holds at most the three known assets, in
      the fixed order macOS archive, macOS disk image, Windows installer. */
  lemma {:induction false} AssetsInFixedOrder(options: Options, disk: Disk, darwin: Json, windows: Json)
    requires AssetsOf(options, disk, darwin, windows).Ok?
    ensures var items := AssetsOf(options, disk, darwin, windows).value;
      && |items| <= 3
      && (forall i :: 0 <= i < |items| ==> Slot(items[i]) < 3)
      && (forall i, j :: 0 <= i < j < |items| ==> Slot(items[i]) < Slot(items[j]))
  {
    var mac := RecordOf(MacArchiveAsset(options, disk));
    var dmg := RecordOf(MacDmgAsset(options, disk, darwin).value);
    var win := RecordOf(WindowsAsset(options, disk, windows).value);
    assert AssetsOf(options, disk, darwin, windows).value == Present(mac) + Present(dmg) + Present(win);
    MacArchiveSlot(options, disk);
    MacDmgSlot(options, disk, darwin);
    WindowsSlot(options, disk, windows);
    SlotsInOrder(mac, dmg, win);
  }

  /** The assets list holds each of the three assets exactly when its file was found. */
  lemma {:induction false} AssetsMatchFiles(options: Options, disk: Disk, darwin: Json, windows: Json)
    requires AssetsOf(options, disk, darwin, windows).Ok?
    ensures var items := AssetsOf(options, disk, darwin, windows).value;
      && ((exists i :: 0 <= i < |items| && Slot(items[i]) == 0)
          <==> MacArchiveSearchName(options.version) in disk.macFiles)
      && ((exists i :: 0 <= i < |items| && Slot(items[i]) == 1)
          <==> MacDmgSearchName(options.version) in disk.macFiles)
      && ((exists i :: 0 <= i < |items| && Slot(items[i]) == 2)
          <==> WindowsInstallerSearchName(options.version) in disk.windowsFiles)
  {
    var mac := RecordOf(MacArchiveAsset(options, disk));
    var dmg := RecordOf(MacDmgAsset(options, disk, darwin).value);
    var win := RecordOf(WindowsAsset(options, disk, windows).value);
    assert AssetsOf(options, disk, darwin, windows).value == Present(mac) + Present(dmg) + Present(win);
    MacArchiveSlot(options, disk);
    MacDmgSlot(options, disk, darwin);
    WindowsSlot(options, disk, windows);
    SlotsInOrder(mac, dmg, win);
  }


  /** The assets list is empty exactly when none of the three files was found. */
  lemma AssetsEmptyIffNoneFound(options: Options, disk: Disk, darwin: Json, windows: Json)
    requires AssetsOf(options, disk, darwin, windows).Ok?
    ensures AssetsOf(options, disk, darwin, windows).value == [] <==>
      && MacArchiveSearchName(options.version) !in disk.macFiles
      && MacDmgSearchName(options.version) !in disk.macFiles
      && WindowsInstallerSearchName(options.version) !in disk.windowsFiles
  {
    MacArchiveSlot(options, disk);
    MacDmgSlot(options, disk, darwin);
    WindowsSlot(options, disk, windows);
  }

  /** A missing input file is reported before anything else is looked at. */
  lemma PayloadMissingFiles(options: Options, disk: Disk)
    ensures PayloadOf(options, disk) == Err(ManifestMissing) <==> disk.manifest.None?
    ensures PayloadOf(options, disk) == Err(ReleasesMissing) <==> disk.manifest.Some? && disk.releases.None?
  {
  }

  /** No payload is written without an asset, and an empty list is refused
      only when none of the three files was found. */
  lemma PayloadNeedsAnAsset(options: Options, disk: Disk)
    ensures PayloadOf(options, disk) == Err(NoAssets) ==>
      && MacArchiveSearchName(options.version) !in disk.macFiles
      && MacDmgSearchName(options.version) !in disk.macFiles
      && WindowsInstallerSearchName(options.version) !in disk.windowsFiles
    ensures PayloadOf(options, disk).Ok? ==>
      || MacArchiveSearchName(options.version) in disk.macFiles
      || MacDmgSearchName(options.version) in disk.macFiles
      || WindowsInstallerSearchName(options.version) in disk.windowsFiles
  {
    if disk.manifest.Some? && disk.releases.Some? && ReleaseEntry(disk.releases.value).Ok? {
      var entry := ReleaseEntry(disk.releases.value).value;
      var darwin, windows := PlatformEntry(entry, "darwin-aarch64"), PlatformEntry(entry, "windows-x86_64");
      if darwin.Ok? && windows.Ok? && AssetsOf(options, disk, darwin.value, windows.value).Ok? {
        AssetsEmptyIffNoneFound(options, disk, darwin.value, windows.value);
      }
    }
  }


  /** With well-formed releases metadata and no artifact on disk, the script
      refuses to publish. */
  lemma EmptyPayloadRefused(options: Options, disk: Disk)
    requires disk.manifest.Some? && disk.releases.Some?
    requires ReleaseEntry(disk.releases.value).Ok?
    requires PlatformEntry(ReleaseEntry(disk.releases.value).value, "darwin-aarch64").Ok?
    requires PlatformEntry(ReleaseEntry(disk.releases.value).value, "windows-x86_64").Ok?
    requires WindowsExtra(PlatformEntry(ReleaseEntry(disk.releases.value).value, "windows-x86_64").value).Ok?
    requires MacArchiveSearchName(options.version) !in disk.macFiles
    requires MacDmgSearchName(options.version) !in disk.macFiles
    requires WindowsInstallerSearchName(options.version) !in disk.windowsFiles
    ensures PayloadOf(options, disk) == Err(NoAssets)
  {
  }

  /** The fields of a payload: the channel defaults to stable, the status is
      always live, and the release entry is kept as metadata. */
  lemma PayloadFields(options: Options, disk: Disk)
    requires PayloadOf(options, disk).Ok?
    ensures var p := PayloadOf(options, disk).value;
      && p.JObj?
      && p.fields["channel"] == JStr(if options.channel == "" then "stable" else options.channel)
      && p.fields["status"] == JStr("live")
      && p.fields["version"] == JStr(options.version)
      && p.fields["build_sha"] == JStr(options.buildSha)
      && disk.manifest.Some? && p.fields["manifest_payload"] == disk.manifest.value
      && disk.releases.Some? && ReleaseEntry(disk.releases.value).Ok?
      && p.fields["metadata"] == JObj(map["releases_entry" := ReleaseEntry(disk.releases.value).value])
      && "assets" in p.fields && p.fields["assets"].JArr? && p.fields["assets"].items != []
  {
    var entry := ReleaseEntry(disk.releases.value).value;
    var darwin := PlatformEntry(entry, "darwin-aarch64").value;
    var windows := PlatformEntry(entry, "windows-x86_64").value;
    var items := AssetsOf(options, disk, darwin, windows).value;
    assert PayloadOf(options, disk) == Ok(PayloadRecord(options, disk.manifest.value, entry, items));
    PayloadRecordFields(options, disk.manifest.value, entry, items);
  }

  /** Looking up the fields of the payload object. */
  lemma PayloadRecordFields(options: Options, manifest: Json, entry: Json, assets: seq<Json>)
    ensures var p := PayloadRecord(options, manifest, entry, assets);
      && p.fields["channel"] == JStr(if options.channel == "" then "stable" else options.channel)
      && p.fields["status"] == JStr("live")
      && p.fields["version"] == JStr(options.version)
      && p.fields["build_sha"] == JStr(options.buildSha)
      && p.fields["manifest_payload"] == manifest
      && p.fields["metadata"] == JObj(map["releases_entry" := entry])
      && "assets" in p.fields && p.fields["assets"] == JArr(assets)
  {
  }

  /** The channel labels the payload and nothing else: the assets, and with
      them every storage path, are the same whatever the channel. */
  lemma ChannelOnlyLabelsPayload(options: Options, disk: Disk, darwin: Json, windows: Json, channel: string)
    ensures AssetsOf(options.(channel := channel), disk, darwin, windows) == AssetsOf(options, disk, darwin, windows)
  {
  }

  /** The Windows installer's metadata from the release entry overrides the
      default `artifact: installer` and is copied into the asset's `extra`. */
  lemma {:induction false} WindowsMetadataWins(options: Options, disk: Disk, windows: Json)
    requires WindowsAsset(options, disk, windows).Ok? && WindowsAsset(options, disk, windows).value.Some?
    requires Get(windows, "installer", JObj(map[])).Ok? && Get(windows, "installer", JObj(map[])).value.JObj?
    ensures var e := WindowsAsset(options, disk, windows).value.value.extra;
      var meta := Get(windows, "installer", JObj(map[])).value.fields;
      && (forall k :: k in meta ==> k in e && e[k] == meta[k])
      && ("artifact" !in meta ==> "artifact" in e && e["artifact"] == JStr("installer"))
  {
    var version := options.version;
    var extra := WindowsExtra(windows).value;
    AssetExtraPresent(FindFirst(disk.windowsFiles, WindowsInstallerSearchName(version)), version,
                      "windows", "installer", options.cdnBase,
                      FindFirst(disk.windowsFiles, WindowsSignatureSearchName(version)),
                      "application/x-msi", extra);
  }

  /** The disk image's `extra` carries the notarisation details of the
      installer object of the darwin entry, null where it has none. */
  lemma {:induction false} DmgNotarisationDetails(options: Options, disk: Disk, darwin: Json)
    requires MacDmgAsset(options, disk, darwin).Ok? && MacDmgAsset(options, disk, darwin).value.Some?
    ensures darwin.JObj? && Get(darwin, "installer", JObj(map[])).value.JObj?
    ensures var e := MacDmgAsset(options, disk, darwin).value.value.extra;
      var meta := Get(darwin, "installer", JObj(map[])).value.fields;
      && "artifact" in e && e["artifact"] == JStr("installer")
      && "notarization_status" in e
      && e["notarization_status"] == (if "notarization_status" in meta then meta["notarization_status"] else JNull)
      && "submission_id" in e
      && e["submission_id"] == (if "submission_id" in meta then meta["submission_id"] else JNull)
  {
    var version := options.version;
    var extra := DmgExtra(darwin).value;
    AssetExtraPresent(FindFirst(disk.macFiles, MacDmgSearchName(version)), version,
                      "macos", "installer", options.cdnBase, None,
                      "application/x-apple-diskimage", extra);
  }

  /** A releases manifest whose `releases` is absent or falsy (`null`, `[]`, ...)
      is accepted: the release entry is then `{}`, and a payload is built as soon
      as one artifact is found. */
  lemma EmptyReleasesAccepted(options: Options, disk: Disk)
    requires disk.manifest.Some? && disk.releases.Some? && disk.releases.value.JObj?
    requires "releases" !in disk.releases.value.fields || !Truthy(disk.releases.value.fields["releases"])
    requires || MacArchiveSearchName(options.version) in disk.macFiles
             || MacDmgSearchName(options.version) in disk.macFiles
             || WindowsInstallerSearchName(options.version) in disk.windowsFiles
    ensures PayloadOf(options, disk).Ok?
    ensures PayloadOf(options, disk).value.fields["metadata"] == JObj(map["releases_entry" := JObj(map[])])
  {
    var entry := ReleaseEntry(disk.releases.value).value;
    assert entry == JObj(map[]);
    var darwin := PlatformEntry(entry, "darwin-aarch64").value;
    var windows := PlatformEntry(entry, "windows-x86_64").value;
    assert darwin == JObj(map[]) && windows == JObj(map[]);
    AssetsEmptyIffNoneFound(options, disk, darwin, windows);
    PayloadRecordFields(options, disk.manifest.value, entry, AssetsOf(options, disk, darwin, windows).value);
  }
}
