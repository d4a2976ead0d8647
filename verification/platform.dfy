/**
 * Platform detection: the host flags computed from the lower-cased `os.name`
 * and `os.arch` properties, and the priority-ordered choice of the directory
 * that holds the matching build of the native library.
 */
module Platform {
  import opened Outcomes
  import opened Text
  import opened Errors

  /** The four platforms a native library build ships for. */
  datatype Tag = Windows | X86_64Linux | Aarch64Linux | MacOS

  /** The resource directory name of each platform. */
  function DirName(t: Tag): string
  {
    match t
    case Windows => "windows"
    case X86_64Linux => "x86_64-linux"
    case Aarch64Linux => "aarch64-linux"
    case MacOS => "macos"
  }

  /** The five host flags, each a substring test on a lower-cased property. */
  datatype HostFlags = HostFlags(isWindows: bool, isMac: bool, isLinux: bool, isAmd64: bool, isAarch64: bool)

  function DetectFlags(osName: string, archName: string): (r: HostFlags)
    ensures r.isWindows || r.isMac ==> |osName| >= 3
    ensures r.isLinux ==> |osName| >= 5
    ensures r.isAmd64 || r.isAarch64 ==> |archName| >= 5
  {
    var os := ToLower(osName);
    var arch := ToLower(archName);
    HostFlags(
      Contains(os, "win"),
      Contains(os, "mac"),
      Contains(os, "linux"),
      Contains(arch, "amd64") || Contains(arch, "x86_64"),
      Contains(arch, "aarch64"))
  }

  /** The flags a platform's build needs. */
  predicate RuleHolds(f: HostFlags, t: Tag)
  {
    match t
    case Windows => f.isWindows
    case X86_64Linux => f.isLinux && f.isAmd64
    case Aarch64Linux => f.isLinux && f.isAarch64
    case MacOS => f.isMac
  }

  /** The order in which the platforms are tried. */
  function Priority(t: Tag): nat
  {
    match t
    case Windows => 0
    case X86_64Linux => 1
    case Aarch64Linux => 2
    case MacOS => 3
  }

  /**
   * The if/else chain over the flags: Windows, then Linux on x86-64, then
   * Linux on AArch64, then macOS. It picks the platform of highest priority
   * whose flags hold, and fails exactly when none holds.
   */
  function SelectTag(f: HostFlags): (r: Result<Tag, BootError>)
    ensures r.Ok? ==> RuleHolds(f, r.value)
    ensures r.Ok? ==> forall u :: Priority(u) < Priority(r.value) ==> !RuleHolds(f, u)
    ensures r.Err? <==> forall u :: !RuleHolds(f, u)
    ensures r.Err? ==> r.error == UnsupportedOs
  {
    if f.isWindows then assert RuleHolds(f, Windows); Ok(Windows)
    else if f.isLinux && f.isAmd64 then assert RuleHolds(f, X86_64Linux); Ok(X86_64Linux)
    else if f.isLinux && f.isAarch64 then assert RuleHolds(f, Aarch64Linux); Ok(Aarch64Linux)
    else if f.isMac then assert RuleHolds(f, MacOS); Ok(MacOS)
    else Err(UnsupportedOs)
  }

  /** The platform tag for the given `os.name` and `os.arch`, or the unsupported-OS error. */
  function Resolve(osName: string, archName: string): (r: Result<Tag, BootError>)
    ensures r.Ok? ==> RuleHolds(DetectFlags(osName, archName), r.value)
    ensures r.Err? ==> r.error == UnsupportedOs
    ensures |osName| < 3 ==> r == Err(UnsupportedOs)
  {
    SelectTag(DetectFlags(osName, archName))
  }

  // The conditions under which each outcome is chosen, stated on the lower-cased names.

  ghost predicate OsHas(osName: string, key: string) { Contains(ToLower(osName), key) }
  ghost predicate ArchHas(archName: string, key: string) { Contains(ToLower(archName), key) }
  ghost predicate ArchX86(archName: string) { ArchHas(archName, "amd64") || ArchHas(archName, "x86_64") }

  /** An OS name containing "win" selects Windows whatever the architecture, and nothing else does. */
  lemma ResolveWindows(osName: string, archName: string)
    ensures Resolve(osName, archName) == Ok(Windows) <==> OsHas(osName, "win")
  {
  }

  /** Linux with "amd64" or "x86_64" in the architecture selects x86-64 Linux, unless the OS also reads as Windows. */
  lemma ResolveX86_64Linux(osName: string, archName: string)
    ensures Resolve(osName, archName) == Ok(X86_64Linux)
        <==> !OsHas(osName, "win") && OsHas(osName, "linux") && ArchX86(archName)
  {
  }

  /** Linux with "aarch64" selects AArch64 Linux only when the x86-64 test failed first. */
  lemma ResolveAarch64Linux(osName: string, archName: string)
    ensures Resolve(osName, archName) == Ok(Aarch64Linux)
        <==> !OsHas(osName, "win") && OsHas(osName, "linux") && !ArchX86(archName) && ArchHas(archName, "aarch64")
  {
  }

  /** An OS name containing "mac" selects macOS for any architecture, once no earlier rule applied. */
  lemma ResolveMacOS(osName: string, archName: string)
    ensures Resolve(osName, archName) == Ok(MacOS)
        <==> && !OsHas(osName, "win")
             && !(OsHas(osName, "linux") && (ArchX86(archName) || ArchHas(archName, "aarch64")))
             && OsHas(osName, "mac")
  {
  }

  /** Every other combination is rejected, and the only error is the unsupported-OS one. */
  lemma ResolveUnsupported(osName: string, archName: string)
    ensures Resolve(osName, archName).Err? <==>
        && !OsHas(osName, "win")
        && !(OsHas(osName, "linux") && (ArchX86(archName) || ArchHas(archName, "aarch64")))
        && !OsHas(osName, "mac")
    ensures Resolve(osName, archName).Err? ==> Resolve(osName, archName).error == UnsupportedOs
  {
  }

  /** Detection ignores case: resolving the lower-cased names gives the same answer. */
  lemma ResolveIgnoresCase(osName: string, archName: string)
    ensures Resolve(osName, archName) == Resolve(ToLower(osName), ToLower(archName))
  {
    ToLowerIdempotent(osName);
    ToLowerIdempotent(archName);
  }

  // A declarative statement of the same choice: an ordered table of rules,
  // the first rule that matches deciding the platform.

  /** A rule matches when the OS name contains `osKey` and, unless `archKeys` is empty, the architecture contains one of `archKeys`. */
  datatype Rule = Rule(osKey: string, archKeys: seq<string>, tag: Tag)

  const SupportTable: seq<Rule> := [
    Rule("win", [], Windows),
    Rule("linux", ["amd64", "x86_64"], X86_64Linux),
    Rule("linux", ["aarch64"], Aarch64Linux),
    Rule("mac", [], MacOS)
  ]

  predicate ContainsAny(s: string, keys: seq<string>)
  {
    keys != [] && (Contains(s, keys[0]) || ContainsAny(s, keys[1..]))
  }

  predicate Matches(r: Rule, os: string, arch: string)
  {
    Contains(os, r.osKey) && (r.archKeys == [] || ContainsAny(arch, r.archKeys))
  }

  /** The tag of the first rule in `rules` that matches, if any. */
  function FirstMatch(rules: seq<Rule>, os: string, arch: string): (r: Option<Tag>)
    ensures r.Some? <==> exists i :: 0 <= i < |rules| && Matches(rules[i], os, arch)
    ensures r.Some? ==> exists i :: 0 <= i < |rules| && Matches(rules[i], os, arch) && r.value == rules[i].tag
                                    && forall j :: 0 <= j < i ==> !Matches(rules[j], os, arch)
  {
    if rules == [] then None
    else if Matches(rules[0], os, arch) then Some(rules[0].tag)
    else
      var r := FirstMatch(rules[1..], os, arch);
      assert forall i :: 1 <= i < |rules| ==> rules[i] == rules[1..][i - 1];
      if r.Some? then
        var i :| 0 <= i < |rules| - 1 && Matches(rules[1..][i], os, arch) && r.value == rules[1..][i].tag
                 && forall j :: 0 <= j < i ==> !Matches(rules[1..][j], os, arch);
        assert forall j :: 0 <= j < i + 1 ==> !Matches(rules[j], os, arch) by {
          forall j | 0 <= j < i + 1 ensures !Matches(rules[j], os, arch) {
            if j > 0 { assert rules[j] == rules[1..][j - 1]; }
          }
        }
        assert Matches(rules[i + 1], os, arch) && r.value == rules[i + 1].tag;
        r
      else r
  }

  /** The if/else chain chooses exactly what the first matching table rule names, and fails exactly when no rule matches. */
  lemma ResolveIsFirstTableMatch(osName: string, archName: string)
    ensures Resolve(osName, archName) ==
      match FirstMatch(SupportTable, ToLower(osName), ToLower(archName))
      case Some(t) => Ok(t)
      case None => Err(UnsupportedOs)
  {
    var os, arch := ToLower(osName), ToLower(archName);
    var f := DetectFlags(osName, archName);
    var t0 := SupportTable;
    var t1 := [Rule("linux", ["amd64", "x86_64"], X86_64Linux), Rule("linux", ["aarch64"], Aarch64Linux), Rule("mac", [], MacOS)];
    var t2 := [Rule("linux", ["aarch64"], Aarch64Linux), Rule("mac", [], MacOS)];
    var t3 := [Rule("mac", [], MacOS)];
    assert t0[1..] == t1 && t1[1..] == t2 && t2[1..] == t3 && t3[1..] == [];
    assert ["amd64", "x86_64"][1..] == ["x86_64"] && ["x86_64"][1..] == [] && ["aarch64"][1..] == [];
    assert ContainsAny(arch, []) == false;
    assert ContainsAny(arch, ["x86_64"]) == Contains(arch, "x86_64");
    assert ContainsAny(arch, ["amd64", "x86_64"]) == (Contains(arch, "amd64") || Contains(arch, "x86_64"));
    assert ContainsAny(arch, ["aarch64"]) == Contains(arch, "aarch64");
    assert Matches(t0[0], os, arch) == f.isWindows;
    assert Matches(t1[0], os, arch) == (f.isLinux && f.isAmd64);
    assert Matches(t2[0], os, arch) == (f.isLinux && f.isAarch64);
    assert Matches(t3[0], os, arch) == f.isMac;
    assert FirstMatch(t3, os, arch) == if f.isMac then Some(MacOS) else None;
    assert FirstMatch(t2, os, arch) == if f.isLinux && f.isAarch64 then Some(Aarch64Linux) else FirstMatch(t3, os, arch);
    assert FirstMatch(t1, os, arch) == if f.isLinux && f.isAmd64 then Some(X86_64Linux) else FirstMatch(t2, os, arch);
    assert FirstMatch(t0, os, arch) == if f.isWindows then Some(Windows) else FirstMatch(t1, os, arch);
  }

  // What the substring tests find in the lower-cased names the JVM reports.

  lemma LinuxNameKeys()
    ensures Contains("linux", "linux") && !Contains("linux", "win") && !Contains("linux", "mac")
  {
    assert StartsWith("linux", "linux");
    NotContainsMissingChar("linux", "win", 0);
    NotContainsMissingChar("linux", "mac", 0);
  }

  lemma MacNameKeys()
    ensures Contains("mac os x", "mac") && !Contains("mac os x", "win") && !Contains("mac os x", "linux")
  {
    assert StartsWith("mac os x", "mac");
    NotContainsMissingChar("mac os x", "win", 0);
    NotContainsMissingChar("mac os x", "linux", 0);
  }

  lemma FreeBsdNameKeys()
    ensures !Contains("freebsd", "win") && !Contains("freebsd", "linux") && !Contains("freebsd", "mac")
  {
    NotContainsMissingChar("freebsd", "win", 0);
    NotContainsMissingChar("freebsd", "linux", 0);
    NotContainsMissingChar("freebsd", "mac", 0);
  }

  lemma Aarch64ArchKeys()
    ensures Contains("aarch64", "aarch64") && !Contains("aarch64", "amd64") && !Contains("aarch64", "x86_64")
  {
    assert StartsWith("aarch64", "aarch64");
    NotContainsMissingChar("aarch64", "amd64", 1);
    NotContainsMissingChar("aarch64", "x86_64", 0);
  }

  lemma ArmArchKeys()
    ensures !Contains("arm", "amd64") && !Contains("arm", "x86_64") && !Contains("arm", "aarch64")
  {
    NotContainsMissingChar("arm", "amd64", 2);
    NotContainsMissingChar("arm", "x86_64", 0);
    NotContainsMissingChar("arm", "aarch64", 3);
  }

  // Concrete hosts, by the lower-cased names the JVM reports (so "Linux" and "LINUX" alike).

  /** Windows ("Windows 10", "Windows Server 2019", ...) selects the Windows build on any architecture. */
  lemma ResolveWindowsHost(os: string, arch: string)
    requires ToLower(os) == "windows 10"
    ensures Resolve(os, arch) == Ok(Windows)
  {
    assert StartsWith("windows 10", "win");
  }

  /** Linux on x86-64 selects the x86-64 Linux build. */
  lemma ResolveLinuxAmd64Host(os: string, arch: string)
    requires ToLower(os) == "linux" && ToLower(arch) == "amd64"
    ensures Resolve(os, arch) == Ok(X86_64Linux)
  {
    LinuxNameKeys();
    assert StartsWith("amd64", "amd64");
  }

  /** Linux on AArch64 selects the AArch64 Linux build. */
  lemma ResolveLinuxAarch64Host(os: string, arch: string)
    requires ToLower(os) == "linux" && ToLower(arch) == "aarch64"
    ensures Resolve(os, arch) == Ok(Aarch64Linux)
  {
    LinuxNameKeys();
    Aarch64ArchKeys();
  }

  /** A Mac reports "Mac OS X" and selects the macOS build, whatever the architecture. */
  lemma ResolveMacHost(os: string, arch: string)
    requires ToLower(os) == "mac os x"
    ensures Resolve(os, arch) == Ok(MacOS)
  {
    MacNameKeys();
  }

  /** 32-bit ARM Linux is not supported. */
  lemma ResolveLinuxArmHost(os: string, arch: string)
    requires ToLower(os) == "linux" && ToLower(arch) == "arm"
    ensures Resolve(os, arch) == Err(UnsupportedOs)
  {
    LinuxNameKeys();
    ArmArchKeys();
  }

  /** FreeBSD is not supported, whatever the architecture. */
  lemma ResolveFreeBsdHost(os: string, arch: string)
    requires ToLower(os) == "freebsd"
    ensures Resolve(os, arch) == Err(UnsupportedOs)
  {
    FreeBsdNameKeys();
  }

  /** Because the Windows test is a bare substring test and comes first, an OS named "Darwin" reads as Windows. */
  lemma DarwinReadsAsWindows(os: string, arch: string)
    requires ToLower(os) == "darwin"
    ensures Resolve(os, arch) == Ok(Windows)
  {
    assert "darwin"[3..] == "win";
    assert StartsWith("darwin"[3..], "win");
  }
}
