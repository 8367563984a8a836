# Rostoc release CI: artifact names, storage paths and the publish payload

This project models three Python helpers from the Rostoc release pipeline in
Dafny, and proves properties of the model.

- `scripts/ci/get_artifact_name.py` names the release artifacts: updater
  archives, installers and their detached `.sig` signatures. It also has a
  small command-line front end. The model follows the script's built-in
  fallback naming.
- `scripts/ci/get_storage_path.py` gives the object-store path and CDN URL of
  an artifact for each release channel. It also has a command-line front end.
  The model follows the script's built-in fallback scheme.
- `scripts/ci/build_backend_payload.py` builds the publish payload sent to the
  release backend. It holds one asset record per artifact found on disk:
  - the macOS updater archive;
  - the macOS disk image, with its notarisation details;
  - the Windows installer.

  The payload also carries the channel, version, build SHA, manifest and
  release-entry metadata.

Modules, one per file:

- `Results` (`results.dfy`): `Option`, `Result` and the exit outcome `Exit`
  of a command-line run (status, standard-output lines, standard-error
  lines).
- `JsonValues` (`json_values.dfy`): decoded JSON values, plus the three
  pieces of Python semantics the payload builder relies on: truthiness,
  `or`, and `dict.get`.
- `PyText` (`py_text.dfy`): Python's `str.strip()`, over the whitespace set
  of `str.isspace`.
- `ArtifactNaming` (`artifact_naming.dfy`): the naming functions and the
  `main` of `get_artifact_name.py`, as a function from `argv` to `Exit`.
- `StoragePaths` (`storage_paths.dfy`): the channel prefixes, the path, URL
  and signature-path functions, and the `main` of `get_storage_path.py`.
  `SPACES_CDN_BASE` is a parameter of `Run`.
- `BackendPayload` (`backend_payload.dfy`): the payload builder.
  - `build_asset` is the method `BuildAsset`. It builds the record and the
    copied `extra` map step by step, and is proved equal to the
    specification function `AssetOf`, rendered by `AssetJson`.
  - `main` is the method `BuildPayload`. It runs the three asset blocks, each
    appending to the list, and is proved equal to `PayloadOf`.
  - Properties are proved as lemmas over these specification functions.

Checksums, file sizes, file texts and the results of the directory searches
are inputs. A root directory is the map from file names to contents of the
regular files under it. A root that does not exist is the empty map.

The names `main` searches for on macOS agree with the naming scheme. This is
proved by the `ensures` of `MacArchiveSearchName`, `MacSignatureSearchName`
and `MacDmgSearchName`.

The Windows installer that `main` searches for is `...-windows-x86_64.msi`.
The naming scheme normalises `x86_64` to `x64`, so the names disagree.
`WindowsSearchNameNotProduced` proves that no architecture makes the scheme
produce the searched-for name. The names the external `runtime_config`
module produces are not part of this model, so this is recorded as a proved
fact, not as a bug.

`build_asset` puts every asset at the stable channel's path
(`releases/v{version}/...`), whatever channel the payload is published on.
`AssetStoragePaths` and `ChannelOnlyLabelsPayload` state this as written.

## Model

| member | source | states |
|---|---|---|
| ArtifactNaming.WindowsArch | scripts/ci/get_artifact_name.py:49 | i686 becomes x86 and x86_64 becomes x64; every other arch is kept; a normalised arch is never i686 or x86_64 |
| ArtifactNaming.UpdaterArchiveName | scripts/ci/get_artifact_name.py:37-42 | a name exactly for macos and linux, `Rostoc-{v}-darwin-{arch}.app.tar.gz` and `Rostoc-{v}-linux-{arch}.AppImage.tar.gz`; any other platform (windows too) is the error naming that platform |
| ArtifactNaming.InstallerName | scripts/ci/get_artifact_name.py:45-53 | a name exactly for macos, windows and linux: `Rostoc_{v}_{arch}.dmg`, `Rostoc-{v}-windows-{normalised arch}.msi`, `Rostoc-{v}-linux-{arch}.AppImage`; otherwise the error naming the platform |
| ArtifactNaming.SignatureName | scripts/ci/get_artifact_name.py:56-57 | the artifact name is a prefix, `.sig` the suffix, and the length grows by 4 |
| ArtifactNaming.LinuxArchiveWrapsInstaller | scripts/ci/get_artifact_name.py:41-52 | the Linux updater archive is the AppImage installer name followed by `.tar.gz` |
| ArtifactNaming.ArchiveIsNotInstaller | scripts/ci/get_artifact_name.py:37-53 | on both platforms with an archive, the archive and the installer are different names |
| ArtifactNaming.Run | scripts/ci/get_artifact_name.py:60-97 | exit 0 exactly for `archive` with 3 arguments on macos/linux, `installer` with 3 arguments on macos/windows/linux, `signature` with 1 argument; then the one output line is the named artifact; every failure is status 1 with nothing on stdout; stderr holds the general usage lines when no type is given, the type's own usage line for a wrong number of arguments, `Error: ` and the ValueError's message for an unsupported platform, and the two unknown-type lines otherwise |
| ArtifactNaming.UsageExamples | scripts/ci/get_artifact_name.py:14-22 | the three documented command lines print the documented names |
| StoragePaths.ChannelPrefix | scripts/ci/get_storage_path.py:48-59 | a known channel gets its own prefix from the table; any other channel gets stable's prefix |
| StoragePaths.ChannelPrefixUnderReleases | scripts/ci/get_storage_path.py:48-59 | every prefix starts with `releases` |
| StoragePaths.StoragePath | scripts/ci/get_storage_path.py:56-60 | `{prefix}/v{version}/{filename}` for the channel's prefix; a definition with no contract of its own, whose layout `StoragePathLayout` states |
| StoragePaths.StoragePathLayout | scripts/ci/get_storage_path.py:56-60 | a path starts with the channel prefix and `/v`, holds the version right after them, ends with `/` and the file name, and has nothing else in it |
| StoragePaths.CdnUrl | scripts/ci/get_storage_path.py:63-69 | the URL is empty exactly when the CDN base is empty; otherwise it is the base, `/` and the storage path |
| StoragePaths.SignaturePath | scripts/ci/get_storage_path.py:72-75 | the signature path is the storage path of the naming scheme's signature name of the file |
| StoragePaths.SignatureBesideArtifact | scripts/ci/get_storage_path.py:72-75 | the signature path is never the path of the file itself |
| StoragePaths.StablePathFormat | scripts/ci/get_storage_path.py:59-60 | on stable the path is `releases/v{version}/{filename}` |
| StoragePaths.UnknownChannelIsStable | scripts/ci/get_storage_path.py:59 | an unknown channel stores exactly where stable does |
| StoragePaths.ChannelsAreIsolated | scripts/ci/get_storage_path.py:48-60 | channels with different prefixes never share a path, for any versions and file names |
| StoragePaths.StoragePathInjective | scripts/ci/get_storage_path.py:60 | within one version and channel, different files get different paths |
| StoragePaths.Run | scripts/ci/get_storage_path.py:78-116 | exit 0 exactly with at least 3 arguments and type `path` or `signature`, or `url` with a CDN base set; the output is the matching path or URL for the given or default channel; the usage, missing-CDN and unknown-type failures are status 1 with the script's messages |
| StoragePaths.DefaultChannelIsStable | scripts/ci/get_storage_path.py:90 | leaving out the channel is the same as passing `stable` |
| StoragePaths.TrailingArgumentsIgnored | scripts/ci/get_storage_path.py:87-90 | arguments after the channel change nothing |
| StoragePaths.StableExample | scripts/ci/get_storage_path.py:15-16 | the first documented path |
| StoragePaths.StagingExample | scripts/ci/get_storage_path.py:18-19 | the second documented path, on staging |
| StoragePaths.CdnExamplePath | scripts/ci/get_storage_path.py:21-22 | the path inside the third documented example |
| StoragePaths.CdnExample | scripts/ci/get_storage_path.py:21-22 | the documented CDN URL |
| JsonValues.Truthy | scripts/ci/build_backend_payload.py:101-148 | Python's truth value of decoded JSON: null, false, 0, and empty strings, lists and objects are false; a definition with no contract of its own |
| JsonValues.Or | scripts/ci/build_backend_payload.py:101 | `value or fallback` is the value when it is truthy and the fallback otherwise |
| JsonValues.DictGet | scripts/ci/build_backend_payload.py:111-112 | `.get` succeeds exactly on an object, giving the entry when the key is there and the default otherwise |
| PyText.IsSpace | scripts/ci/build_backend_payload.py:67 | the characters of `str.isspace`; a definition with no contract of its own |
| PyText.StripStart | scripts/ci/build_backend_payload.py:67 | the result is a suffix whose removed prefix is all whitespace and which does not start with whitespace |
| PyText.StripEnd | scripts/ci/build_backend_payload.py:67 | the result is a prefix whose removed suffix is all whitespace and which does not end with whitespace |
| PyText.Strip | scripts/ci/build_backend_payload.py:67 | the result is a slice `s[i..j]` of the text with only whitespace before `i` and after `j`, and a non-empty result neither starts nor ends with whitespace |
| PyText.StripEmptyIffBlank | scripts/ci/build_backend_payload.py:67-69 | the stripped text is empty exactly when the text is all whitespace |
| BackendPayload.SignatureText | scripts/ci/build_backend_payload.py:65-67 | the stripped text of an existing signature file, empty otherwise; a definition with no contract of its own, which `AssetSignatureText` uses |
| BackendPayload.ExtraOf | scripts/ci/build_backend_payload.py:61-69 | the copy of the caller's `extra` with `cdn_url` and `signature_ed25519` set by default; a specification function whose entries `ExtraOfEntries` states |
| BackendPayload.ExtraOfEntries | scripts/ci/build_backend_payload.py:61-69 | the merged `extra` has the caller's keys plus `cdn_url` and `signature_ed25519` when those are non-empty; the caller's entries are kept; the added values are used only under keys the caller left free |
| BackendPayload.ExtraWithCdnUrl | scripts/ci/build_backend_payload.py:61-63 | the `setdefault` of `cdn_url` on the copy is the first step of the merge |
| BackendPayload.ExtraWithSignature | scripts/ci/build_backend_payload.py:64-69 | the `setdefault` of `signature_ed25519` completes the merge |
| BackendPayload.AssetOf | scripts/ci/build_backend_payload.py:35-74 | the asset `build_asset` builds, field by field; a specification function whose properties the asset lemmas below state |
| BackendPayload.AssetFields | scripts/ci/build_backend_payload.py:52-59 | the six entries of the dict literal; a definition with no contract of its own |
| BackendPayload.SignedFields | scripts/ci/build_backend_payload.py:65-66 | those entries and `signature_path` when the asset has one; a definition with no contract of its own |
| BackendPayload.AssetJson | scripts/ci/build_backend_payload.py:52-72 | the record `build_asset` returns for an asset, `extra` added only when non-empty; a definition with no contract of its own, whose keys and values `AssetJsonFields` states |
| BackendPayload.AssetJsonFields | scripts/ci/build_backend_payload.py:52-72 | the record has the six fixed keys, `signature_path` exactly when there is a signature path, `extra` exactly when the merge is non-empty, each with its value |
| BackendPayload.BuildAsset | scripts/ci/build_backend_payload.py:35-74 | the step-by-step record equals the JSON form of `AssetOf`, and is none when the source is missing |
| BackendPayload.AssetIffSource | scripts/ci/build_backend_payload.py:46-47 | there is an asset exactly when the source was given and exists |
| BackendPayload.AssetStoragePaths | scripts/ci/build_backend_payload.py:49-66 | `spaces_path` is the stable storage path, which differs from the path of any channel with another prefix; `signature_path` is there exactly when the signature exists, at its stable path, which is the `get_signature_path` of the source when the signature carries the scheme's name |
| BackendPayload.AssetExtraPresent | scripts/ci/build_backend_payload.py:61-72 | `extra` is non-empty exactly when the caller gave entries, a CDN base is set, or the signature text is not all whitespace; the caller's entries are kept unchanged |
| BackendPayload.AssetCdnUrl | scripts/ci/build_backend_payload.py:50-63 | `cdn_url` is present exactly when the caller gave one or a CDN base is set; the caller's value wins; otherwise it is the base and the stable path |
| BackendPayload.AssetSignatureText | scripts/ci/build_backend_payload.py:64-69 | `signature_ed25519` is present exactly when the caller gave one or the signature exists and is not all whitespace; the caller's value wins; otherwise it is the stripped text |
| BackendPayload.FindFirst | scripts/ci/build_backend_payload.py:21-27 | a file is found exactly when the root holds one of that name; what is found exists and carries that name and contents |
| BackendPayload.MacArchiveSearchName | scripts/ci/build_backend_payload.py:105 | the archive searched for is the naming scheme's macOS aarch64 updater archive |
| BackendPayload.MacSignatureSearchName | scripts/ci/build_backend_payload.py:106 | its signature is the scheme's signature name of that archive |
| BackendPayload.MacDmgSearchName | scripts/ci/build_backend_payload.py:107 | the disk image searched for is the scheme's macOS aarch64 installer |
| BackendPayload.WindowsInstallerSearchName | scripts/ci/build_backend_payload.py:108 | `Rostoc-{version}-windows-x86_64.msi`; a definition with no contract of its own, which `WindowsSearchNameNotProduced` compares with the naming scheme |
| BackendPayload.WindowsSignatureSearchName | scripts/ci/build_backend_payload.py:109 | the Windows signature searched for is the scheme's signature name of the installer searched for |
| BackendPayload.WindowsSearchNameNotProduced | scripts/ci/build_backend_payload.py:108 | no architecture makes the scheme's Windows installer name equal the name searched for |
| BackendPayload.MacArchiveAsset | scripts/ci/build_backend_payload.py:105-123 | the macOS archive block's asset, with its signature and `artifact: updater`; a definition with no contract of its own, whose properties `MacArchiveSlot` and the asset lemmas state |
| BackendPayload.MacDmgAsset | scripts/ci/build_backend_payload.py:127-142 | the disk image block's asset, whose metadata is read only when the disk image was found; a definition with no contract of its own, whose properties `MacDmgSlot` and `DmgNotarisationDetails` state |
| BackendPayload.WindowsAsset | scripts/ci/build_backend_payload.py:146-160 | the Windows block's asset, with its signature and the installer metadata; a definition with no contract of its own, whose properties `WindowsSlot` and `WindowsMetadataWins` state |
| BackendPayload.Get | scripts/ci/build_backend_payload.py:111 | `.get` succeeds exactly on an object, with the entry under the key or the default; a failure is a malformed releases manifest |
| BackendPayload.ReleaseEntry | scripts/ci/build_backend_payload.py:101 | succeeds exactly when the releases manifest is an object whose `releases`, if truthy, is a list or a string; gives the first element of a non-empty list, the first character of a non-empty string, and `{}` when `releases` is absent or falsy |
| BackendPayload.PlatformEntry | scripts/ci/build_backend_payload.py:111-112 | succeeds exactly when the release entry is an object whose `platforms`, if truthy, is an object; gives the platform's entry, or `{}` when `platforms` is absent or falsy or lacks the key; a failure is a malformed releases manifest |
| BackendPayload.DmgExtra | scripts/ci/build_backend_payload.py:128-133 | `artifact: installer` and the two notarisation fields, copied from the installer details or null; defined exactly when the platform entry and its details are objects |
| BackendPayload.WindowsExtra | scripts/ci/build_backend_payload.py:146-149 | succeeds exactly when the platform entry is an object and its installer metadata is falsy or an object; falsy metadata gives exactly `artifact: installer`; otherwise `artifact` plus every key of the metadata, whose values win, with `artifact: installer` when the metadata has none |
| BackendPayload.AssetsOf | scripts/ci/build_backend_payload.py:103-162 | the list is built exactly when the disk image's metadata is readable or no disk image was found, and the Windows metadata is readable; a failure is a malformed releases manifest |
| BackendPayload.AddMacArchive | scripts/ci/build_backend_payload.py:114-125 | the list grows by the macOS archive asset exactly when it was built |
| BackendPayload.AddMacDmg | scripts/ci/build_backend_payload.py:127-144 | the list grows by the disk image asset when it was built; its error is that of the specification |
| BackendPayload.AddWindowsInstaller | scripts/ci/build_backend_payload.py:146-162 | the list grows by the Windows asset when it was built; its error is that of the specification |
| BackendPayload.CollectAssets | scripts/ci/build_backend_payload.py:103-162 | the three blocks in turn give exactly `AssetsOf` |
| BackendPayload.PayloadOf | scripts/ci/build_backend_payload.py:91-177 | the payload `main` writes, or its reason for writing none; a specification function whose properties the payload lemmas below state |
| BackendPayload.PayloadRecord | scripts/ci/build_backend_payload.py:167-177 | the payload dict literal; a definition with no contract of its own, whose fields `PayloadRecordFields` states |
| BackendPayload.BuildPayload | scripts/ci/build_backend_payload.py:91-177 | the method's outcome is exactly `PayloadOf` |
| BackendPayload.AssetJsonSlot | scripts/ci/build_backend_payload.py:52-54 | an asset's record is recognised by its platform and kind |
| BackendPayload.MacArchiveSlot | scripts/ci/build_backend_payload.py:105-125 | the macOS archive asset exists exactly when its file was found, and is the archive kind |
| BackendPayload.MacDmgSlot | scripts/ci/build_backend_payload.py:107-144 | the disk image asset exists exactly when its file was found, and is the macOS installer kind |
| BackendPayload.WindowsSlot | scripts/ci/build_backend_payload.py:108-162 | the Windows asset exists exactly when its file was found, and is the Windows installer kind |
| BackendPayload.AssetsInFixedOrder | scripts/ci/build_backend_payload.py:114-162 | at most three assets, all of the known kinds, strictly in the order macOS archive, disk image, Windows installer |
| BackendPayload.AssetsMatchFiles | scripts/ci/build_backend_payload.py:105-162 | each of the three kinds is in the list exactly when its file was found |
| BackendPayload.AssetsEmptyIffNoneFound | scripts/ci/build_backend_payload.py:103-164 | the list is empty exactly when none of the three files was found |
| BackendPayload.PayloadMissingFiles | scripts/ci/build_backend_payload.py:94-97 | a missing manifest, then a missing releases file, is the error exactly when that file is missing |
| BackendPayload.PayloadNeedsAnAsset | scripts/ci/build_backend_payload.py:164-165 | an empty-payload refusal means no file was found, and a payload means at least one was |
| BackendPayload.EmptyPayloadRefused | scripts/ci/build_backend_payload.py:164-165 | with readable metadata and no artifact on disk, publishing is refused |
| BackendPayload.PayloadFields | scripts/ci/build_backend_payload.py:167-177 | channel (stable when empty), version, status `live`, build SHA, manifest, the release entry as metadata, and a non-empty asset list |
| BackendPayload.PayloadRecordFields | scripts/ci/build_backend_payload.py:167-177 | the field values of the payload object |
| BackendPayload.ChannelOnlyLabelsPayload | scripts/ci/build_backend_payload.py:103-168 | the assets, and with them every path and URL, are the same whatever the channel |
| BackendPayload.DmgNotarisationDetails | scripts/ci/build_backend_payload.py:127-144 | a built disk image asset carries `artifact: installer` and the notarisation status and submission id of the darwin installer object in its `extra`, null where the object has none |
| BackendPayload.EmptyReleasesAccepted | scripts/ci/build_backend_payload.py:99-177 | a releases manifest whose `releases` is absent or falsy (`null`, `[]`, `""`, ...) gives the entry `{}`, and the payload is built as soon as one artifact is found |
| BackendPayload.WindowsMetadataWins | scripts/ci/build_backend_payload.py:146-160 | every key of the Windows installer metadata reaches the asset's `extra` with its value, over the default `artifact` |

## Left out

- The Storybook bundles under `storybook/assets/`: they are presentation only.
- The dynamic import of `runtime_config`: only the scripts' fallback classes are modelled.
- `sha256`, `stat().st_size`, `read_text` and its UTF-8 decoding: checksum, size and text are inputs of each file.
- `find_first`: a root is a map from file name to contents, and the search is an exact-name lookup. `rglob`'s glob patterns (a version holding `*` or `[`), the nested directories and the first-match order are not modelled. Nor is the `is_file` check: only regular files are in the map.
- `load_json`: the decoded JSON is an input. JSON numbers are integers only, and floats are not modelled. A manifest that is not valid JSON is not modelled.
- `argparse`, writing the payload file, the summary line printed afterwards, and JSON key order and indentation.
- `SPACES_CDN_BASE` is read from the environment in the source; here it is a parameter.
- BackendPayload.WindowsExtra: treats any truthy installer metadata that is not an object as an error. Python's `dict.update` also accepts an iterable of key/value pairs.
- BackendPayload.PayloadOf: the different Python exceptions raised on a malformed releases manifest (AttributeError, TypeError, KeyError, ValueError) are one error, `MalformedReleases`. `SystemExit` messages are the `PayloadError` cases.
- BackendPayload.BuildAsset: maps are values in Dafny, so the copy of the caller's `extra` is inherent. That the caller's map is never changed holds by construction and is not stated separately.
- BackendPayload.BuildPayload: `main`'s three blocks are separate methods (`AddMacArchive`, `AddMacDmg`, `AddWindowsInstaller`), each appending to the list it is given.
