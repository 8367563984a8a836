/** File names of the release artifacts: updater archives, installers and
    their detached signatures, and the command-line front end that prints
    them (scripts/ci/get_artifact_name.py, its built-in fallback naming). */
module ArtifactNaming {
  import opened Results

  /** Platforms that have an updater archive. */
  const ArchivePlatforms: set<string> := {"macos", "linux"}

  /** Platforms that have an installer. */
  const InstallerPlatforms: set<string> := {"macos", "windows", "linux"}

  /** Windows installers name the architecture in Windows' own terms:
      i686 becomes x86, x86_64 becomes x64, anything else is kept. */
  function WindowsArch(arch: string): (r: string)
    ensures arch == "i686" ==> r == "x86"
    ensures arch == "x86_64" ==> r == "x64"
    ensures arch != "i686" && arch != "x86_64" ==> r == arch
    // a normalised name is never one of the names being normalised away
    ensures r != "i686" && r != "x86_64"
  {
    if arch == "i686" then "x86" else if arch == "x86_64" then "x64" else arch
  }

  /** Name of the archive the updater downloads; other platforms are a ValueError. */
  function UpdaterArchiveName(version: string, platform: string, arch: string): (r: Result<string, string>)
    ensures r.Ok? <==> platform in ArchivePlatforms
    ensures platform == "macos" ==> r == Ok("Rostoc-" + version + "-darwin-" + arch + ".app.tar.gz")
    ensures platform == "linux" ==> r == Ok("Rostoc-" + version + "-linux-" + arch + ".AppImage.tar.gz")
    ensures r.Err? ==> r.error == "Unsupported platform for updater archive: " + platform
  {
    if platform == "macos" then
      Ok("Rostoc-" + version + "-darwin-" + arch + ".app.tar.gz")
    else if platform == "linux" then
      Ok("Rostoc-" + version + "-linux-" + arch + ".AppImage.tar.gz")
    else
      Err("Unsupported platform for updater archive: " + platform)
  }

  /** Name of the installer; other platforms are a ValueError. */
  function InstallerName(version: string, platform: string, arch: string): (r: Result<string, string>)
    ensures r.Ok? <==> platform in InstallerPlatforms
    ensures platform == "macos" ==> r == Ok("Rostoc_" + version + "_" + arch + ".dmg")
    ensures platform == "windows" ==> r == Ok("Rostoc-" + version + "-windows-" + WindowsArch(arch) + ".msi")
    ensures platform == "linux" ==> r == Ok("Rostoc-" + version + "-linux-" + arch + ".AppImage")
    ensures r.Err? ==> r.error == "Unsupported platform for installer: " + platform
  {
    if platform == "macos" then
      Ok("Rostoc_" + version + "_" + arch + ".dmg")
    else if platform == "windows" then
      Ok("Rostoc-" + version + "-windows-" + WindowsArch(arch) + ".msi")
    else if platform == "linux" then
      Ok("Rostoc-" + version + "-linux-" + arch + ".AppImage")
    else
      Err("Unsupported platform for installer: " + platform)
  }

  /** The detached signature of an artifact sits beside it, with `.sig` appended. */
  function SignatureName(artifact: string): (r: string)
    ensures |r| == |artifact| + 4
    ensures r[..|artifact|] == artifact
    ensures r[|artifact|..] == ".sig"
  {
    artifact + ".sig"
  }

  /** The Linux updater archive is the AppImage installer packed as `.tar.gz`. */
  lemma LinuxArchiveWrapsInstaller(version: string, arch: string)
    ensures UpdaterArchiveName(version, "linux", arch).value
         == InstallerName(version, "linux", arch).value + ".tar.gz"
  {
    var installer := "Rostoc-" + version + "-linux-" + arch + ".AppImage";
    assert "Rostoc-" + version + "-linux-" + arch + ".AppImage.tar.gz" == installer + ".tar.gz";
  }

  /** On every platform that has both, the archive and the installer are different files. */
  lemma {:induction false} ArchiveIsNotInstaller(version: string, platform: string, arch: string)
    requires platform in ArchivePlatforms
    ensures UpdaterArchiveName(version, platform, arch).value != InstallerName(version, platform, arch).value
  {
    if platform == "macos" {
      var archive := UpdaterArchiveName(version, platform, arch).value;
      var installer := InstallerName(version, platform, arch).value;
      assert archive[6] == '-';
      assert installer[6] == '_';
    } else {
      LinuxArchiveWrapsInstaller(version, arch);
    }
  }

  const UsageLine := "Usage: python get_artifact_name.py <type> [args...]"
  const TypesLine := "Types: archive, installer, signature"
  const ArchiveUsage := "Usage: python get_artifact_name.py archive <version> <platform> <arch>"
  const InstallerUsage := "Usage: python get_artifact_name.py installer <version> <platform> <arch>"
  const SignatureUsage := "Usage: python get_artifact_name.py signature <artifact_name>"

  /** Fails with status 1 after printing the given lines to standard error. */
  function Fail(lines: seq<string>): Exit {
    Exit(1, [], lines)
  }

  /** The command-line entry point; `argv[0]` is the script's own name. */
  function Run(argv: seq<string>): (e: Exit)
    ensures e.status == 0 <==>
      || (|argv| == 5 && argv[1] == "archive" && argv[3] in ArchivePlatforms)
      || (|argv| == 5 && argv[1] == "installer" && argv[3] in InstallerPlatforms)
      || (|argv| == 3 && argv[1] == "signature")
    ensures e.status != 0 ==> e.status == 1 && e.stdout == [] && e.stderr != []
    ensures e.status == 0 ==> |e.stdout| == 1 && e.stderr == []
    ensures e.status == 0 && argv[1] == "archive" ==>
      UpdaterArchiveName(argv[2], argv[3], argv[4]) == Ok(e.stdout[0])
    ensures e.status == 0 && argv[1] == "installer" ==>
      InstallerName(argv[2], argv[3], argv[4]) == Ok(e.stdout[0])
    ensures e.status == 0 && argv[1] == "signature" ==> e.stdout == [argv[2] + ".sig"]
    ensures |argv| < 2 ==> e.stderr == [UsageLine, TypesLine]
    // a wrong number of arguments for the type prints that type's usage line
    ensures |argv| >= 2 && argv[1] == "archive" && |argv| != 5 ==> e.stderr == [ArchiveUsage]
    ensures |argv| >= 2 && argv[1] == "installer" && |argv| != 5 ==> e.stderr == [InstallerUsage]
    ensures |argv| >= 2 && argv[1] == "signature" && |argv| != 3 ==> e.stderr == [SignatureUsage]
    // an unsupported platform prints the ValueError's message
    ensures |argv| == 5 && argv[1] == "archive" && UpdaterArchiveName(argv[2], argv[3], argv[4]).Err? ==>
      e.stderr == ["Error: " + UpdaterArchiveName(argv[2], argv[3], argv[4]).error]
    ensures |argv| == 5 && argv[1] == "installer" && InstallerName(argv[2], argv[3], argv[4]).Err? ==>
      e.stderr == ["Error: " + InstallerName(argv[2], argv[3], argv[4]).error]
    ensures |argv| >= 2 && argv[1] !in {"archive", "installer", "signature"} ==>
      e.stderr == ["Error: Unknown type '" + argv[1] + "'", "Valid types: archive, installer, signature"]
  {
    if |argv| < 2 then
      Fail([UsageLine, TypesLine])
    else
      var artifactType := argv[1];
      if artifactType == "archive" then
        if |argv| != 5 then
          Fail([ArchiveUsage])
        else
          match UpdaterArchiveName(argv[2], argv[3], argv[4])
          case Ok(name) => Exit(0, [name], [])
          case Err(msg) => Fail(["Error: " + msg])
      else if artifactType == "installer" then
        if |argv| != 5 then
          Fail([InstallerUsage])
        else
          match InstallerName(argv[2], argv[3], argv[4])
          case Ok(name) => Exit(0, [name], [])
          case Err(msg) => Fail(["Error: " + msg])
      else if artifactType == "signature" then
        if |argv| != 3 then
          Fail([SignatureUsage])
        else
          Exit(0, [SignatureName(argv[2])], [])
      else
        Fail(["Error: Unknown type '" + artifactType + "'", "Valid types: archive, installer, signature"])
  }

  /** The three examples of the script's own usage text. */
  lemma UsageExamples()
    ensures Run(["get_artifact_name.py", "archive", "0.2.143", "macos", "aarch64"]).stdout
         == ["Rostoc-0.2.143-darwin-aarch64.app.tar.gz"]
    ensures Run(["get_artifact_name.py", "installer", "0.2.143", "macos", "aarch64"]).stdout
         == ["Rostoc_0.2.143_aarch64.dmg"]
    ensures Run(["get_artifact_name.py", "signature", "Rostoc_0.2.143_aarch64.dmg"]).stdout
         == ["Rostoc_0.2.143_aarch64.dmg.sig"]
  {
    assert "Rostoc-" + "0.2.143" + "-darwin-" + "aarch64" + ".app.tar.gz" == "Rostoc-0.2.143-darwin-aarch64.app.tar.gz";
    assert "Rostoc_" + "0.2.143" + "_" + "aarch64" + ".dmg" == "Rostoc_0.2.143_aarch64.dmg";
    assert "Rostoc_0.2.143_aarch64.dmg" + ".sig" == "Rostoc_0.2.143_aarch64.dmg.sig";
  }
}
