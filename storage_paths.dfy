/** Where a release artifact is stored in the object store and under which
    CDN URL it is served, per release channel, and the command-line front end
    that prints these (scripts/ci/get_storage_path.py, its built-in fallback). */
module StoragePaths {
  import opened Results
  import ArtifactNaming

  /** The known channels and the directory each one publishes under. */
  const ChannelPrefixes: map<string, string> := map[
    "stable" := "releases",
    "staging" := "releases/staging",
    "beta" := "releases/beta",
    "dev" := "releases/dev"
  ]

  /** The directory of a channel; a channel that is not known publishes
      where stable does. */
  function ChannelPrefix(channel: string): (p: string)
    ensures channel in ChannelPrefixes ==> p == ChannelPrefixes[channel]
    ensures channel !in ChannelPrefixes ==> p == ChannelPrefixes["stable"]
  {
    if channel in ChannelPrefixes then ChannelPrefixes[channel] else "releases"
  }

  /** Every channel publishes somewhere under `releases`. */
  lemma ChannelPrefixUnderReleases(channel: string)
    ensures |ChannelPrefix(channel)| >= 8 && ChannelPrefix(channel)[..8] == "releases"
  {
  }

  /** The object-store path of a file: `{prefix}/v{version}/{filename}`, with
      the channel's prefix. */
  function StoragePath(version: string, filename: string, channel: string): string
  {
    ChannelPrefix(channel) + "/v" + version + "/" + filename
  }

  /** A storage path lies under the channel's directory, in the version's own
      directory, and keeps the file name. */
  lemma StoragePathLayout(version: string, filename: string, channel: string)
    ensures var path := StoragePath(version, filename, channel);
      var n := |ChannelPrefix(channel)| + 2;
      && |path| == n + |version| + 1 + |filename|
      && path[..n] == ChannelPrefix(channel) + "/v"
      && path[n..n + |version|] == version
      && path[|path| - |filename| - 1..] == "/" + filename
  {
    var path := StoragePath(version, filename, channel);
    var front := ChannelPrefix(channel) + "/v";
    assert path == front + (version + "/" + filename);
    assert path == (front + version) + ("/" + filename);
  }

  /** The public URL of an artifact, or the empty string when no CDN is configured. */
  function CdnUrl(version: string, filename: string, cdnBase: string, channel: string): (url: string)
    ensures url == "" <==> cdnBase == ""
    ensures cdnBase != "" ==> url == cdnBase + "/" + StoragePath(version, filename, channel)
  {
    if cdnBase == "" then
      ""
    else
      var storagePath := StoragePath(version, filename, channel);
      cdnBase + "/" + storagePath
  }

  /** Where the detached signature of an artifact is stored: beside it, under
      the naming scheme's signature name. */
  function SignaturePath(version: string, filename: string, channel: string): (path: string)
    ensures path == StoragePath(version, ArtifactNaming.SignatureName(filename), channel)
  {
    StoragePath(version, filename + ".sig", channel)
  }

  /** A signature is never stored where the file itself is. */
  lemma SignatureBesideArtifact(version: string, filename: string, channel: string)
    ensures SignaturePath(version, filename, channel) != StoragePath(version, filename, channel)
  {
    StoragePathLayout(version, filename + ".sig", channel);
    StoragePathLayout(version, filename, channel);
  }

  /** On the stable channel the path is `releases/v{version}/{filename}`. */
  lemma StablePathFormat(version: string, filename: string)
    ensures StoragePath(version, filename, "stable") == "releases/v" + version + "/" + filename
  {
    assert ChannelPrefix("stable") == "releases";
  }

  /** Every channel that is not known stores exactly where stable does. */
  lemma UnknownChannelIsStable(version: string, filename: string, channel: string)
    requires channel !in ChannelPrefixes
    ensures StoragePath(version, filename, channel) == StoragePath(version, filename, "stable")
  {
  }

  /** Channels with different prefixes never share a storage path, whatever
      the versions and file names: one channel cannot overwrite another's files. */
  lemma {:induction false} ChannelsAreIsolated(v1: string, f1: string, c1: string, v2: string, f2: string, c2: string)
    requires ChannelPrefix(c1) != ChannelPrefix(c2)
    ensures StoragePath(v1, f1, c1) != StoragePath(v2, f2, c2)
  {
    var p1, p2 := StoragePath(v1, f1, c1), StoragePath(v2, f2, c2);
    ChannelPrefixUnderReleases(c1);
    ChannelPrefixUnderReleases(c2);
    StoragePathLayout(v1, f1, c1);
    StoragePathLayout(v2, f2, c2);
    assert p1[..9] == ChannelPrefix(c1)[..8] + "/";
    assert p2[..9] == ChannelPrefix(c2)[..8] + "/";
    assert |p1| > 9 && |p2| > 9;
    // the character after "releases/" tells the channels apart:
    // 'v' for stable, the channel's initial otherwise
    assert p1[9] == ChannelMark(c1) by {
      assert (ChannelPrefix(c1) + "/v")[9] == ChannelMark(c1);
    }
    assert p2[9] == ChannelMark(c2) by {
      assert (ChannelPrefix(c2) + "/v")[9] == ChannelMark(c2);
    }
  }

  /** The tenth character of every storage path of a channel. */
  function ChannelMark(channel: string): char {
    var p := ChannelPrefix(channel);
    if p == "releases" then 'v' else p[9]
  }

  /** Within one version and channel, different files get different paths. */
  lemma {:induction false} StoragePathInjective(version: string, f1: string, f2: string, channel: string)
    requires StoragePath(version, f1, channel) == StoragePath(version, f2, channel)
    ensures f1 == f2
  {
    var dir := ChannelPrefix(channel) + "/v" + version + "/";
    assert StoragePath(version, f1, channel) == dir + f1;
    assert StoragePath(version, f2, channel) == dir + f2;
    assert f1 == (dir + f1)[|dir|..];
    assert f2 == (dir + f2)[|dir|..];
  }

  const UsageLine := "Usage: python get_storage_path.py <type> <version> <filename> [channel]"
  const TypesLine := "Types: path, url, signature"

  /** The command-line entry point; `argv[0]` is the script's own name and
      `cdnBase` is the value of SPACES_CDN_BASE, empty when it is not set. */
  function Run(argv: seq<string>, cdnBase: string): (e: Exit)
    ensures e.status == 0 <==>
      |argv| >= 4 && (argv[1] in {"path", "signature"} || (argv[1] == "url" && cdnBase != ""))
    ensures e.status != 0 ==> e.status == 1 && e.stdout == [] && e.stderr != []
    ensures e.status == 0 ==> |e.stdout| == 1 && e.stderr == []
    ensures |argv| >= 4 ==>
      var channel := if |argv| > 4 then argv[4] else "stable";
      && (argv[1] == "path" ==> e.stdout == [StoragePath(argv[2], argv[3], channel)])
      && (argv[1] == "url" && cdnBase != "" ==> e.stdout == [CdnUrl(argv[2], argv[3], cdnBase, channel)])
      && (argv[1] == "signature" ==> e.stdout == [SignaturePath(argv[2], argv[3], channel)])
    ensures |argv| < 4 ==> e.stderr == [UsageLine, TypesLine]
    ensures |argv| >= 4 && argv[1] == "url" && cdnBase == "" ==>
      e.stderr == ["Error: SPACES_CDN_BASE environment variable not set"]
    ensures |argv| >= 4 && argv[1] !in {"path", "url", "signature"} ==>
      e.stderr == ["Error: Unknown type '" + argv[1] + "'", "Valid types: path, url, signature"]
  {
    if |argv| < 4 then
      Exit(1, [], [UsageLine, TypesLine])
    else
      var pathType, version, filename := argv[1], argv[2], argv[3];
      var channel := if |argv| > 4 then argv[4] else "stable";
      if pathType == "path" then
        Exit(0, [StoragePath(version, filename, channel)], [])
      else if pathType == "url" then
        if cdnBase == "" then
          Exit(1, [], ["Error: SPACES_CDN_BASE environment variable not set"])
        else
          Exit(0, [CdnUrl(version, filename, cdnBase, channel)], [])
      else if pathType == "signature" then
        Exit(0, [SignaturePath(version, filename, channel)], [])
      else
        Exit(1, [], ["Error: Unknown type '" + pathType + "'", "Valid types: path, url, signature"])
  }

  /** Leaving the channel out is the same as asking for stable. */
  lemma DefaultChannelIsStable(script: string, pathType: string, version: string, filename: string, cdnBase: string)
    ensures Run([script, pathType, version, filename], cdnBase)
         == Run([script, pathType, version, filename, "stable"], cdnBase)
  {
  }

  /** Arguments after the channel are ignored. */
  lemma TrailingArgumentsIgnored(argv: seq<string>, rest: seq<string>, cdnBase: string)
    requires |argv| >= 5
    ensures Run(argv + rest, cdnBase) == Run(argv, cdnBase)
  {
    var longer := argv + rest;
    assert longer[1] == argv[1] && longer[2] == argv[2] && longer[3] == argv[3] && longer[4] == argv[4];
  }

  /** The first example of the script's own usage text. */
  lemma StableExample()
    ensures StoragePath("0.2.143", "Rostoc_0.2.143_aarch64.dmg", "stable")
         == "releases/v0.2.143/Rostoc_0.2.143_aarch64.dmg"
  {
    assert ChannelPrefix("stable") == "releases";
    assert "releases" + "/v" + "0.2.143" + "/" == "releases/v0.2.143/";
    assert "releases/v0.2.143/" + "Rostoc_0.2.143_aarch64.dmg"
        == "releases/v0.2.143/Rostoc_0.2.143_aarch64.dmg";
  }

  /** The second example: the same file on the staging channel. */
  lemma StagingExample()
    ensures StoragePath("0.2.143", "Rostoc_0.2.143_aarch64.dmg", "staging")
         == "releases/staging/v0.2.143/Rostoc_0.2.143_aarch64.dmg"
  {
    assert ChannelPrefix("staging") == "releases/staging";
    assert "releases/staging" + "/v" + "0.2.143" + "/" == "releases/staging/v0.2.143/";
    assert "releases/staging/v0.2.143/" + "Rostoc_0.2.143_aarch64.dmg"
        == "releases/staging/v0.2.143/Rostoc_0.2.143_aarch64.dmg";
  }

  /** The path in the third example. */
  lemma CdnExamplePath()
    ensures StoragePath("0.2.143", "file.dmg", "stable") == "releases/v0.2.143/file.dmg"
  {
    assert ChannelPrefix("stable") == "releases";
    assert "releases" + "/v" + "0.2.143" + "/" == "releases/v0.2.143/";
    assert "releases/v0.2.143/" + "file.dmg" == "releases/v0.2.143/file.dmg";
  }

  /** The third example: a CDN URL on the stable channel. */
  lemma CdnExample()
    ensures CdnUrl("0.2.143", "file.dmg", "https://cdn.example.com", "stable")
         == "https://cdn.example.com/releases/v0.2.143/file.dmg"
  {
    CdnExamplePath();
    assert "https://cdn.example.com" + "/" == "https://cdn.example.com/";
    assert "https://cdn.example.com/" + "releases/v0.2.143/file.dmg"
        == "https://cdn.example.com/releases/v0.2.143/file.dmg";
  }
}
