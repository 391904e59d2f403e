// The game's version and build strings. The build constants (system, branch,
// commit, date and the three version numbers) are generated at build time, so they
// are the fields of a `BuildData` value here.

module Version {
  import opened Decimal

  datatype BuildData = BuildData(
    system: string, branch: string, commit: string, commitDate: string,
    major: nat, minor: nat, patch: nat)

  /** A development build is any build whose branch is neither "release" nor "HEAD"
      (the branch detected while releasing). */
  predicate IsDevVersion(branch: string) {
    branch != "release" && branch != "HEAD"
  }

  /** " (branch)" on development builds, nothing on release builds. */
  function BranchSuffix(b: BuildData): (t: string)
    ensures t == [] || t[0] == ' '
  {
    if IsDevVersion(b.branch) then " (" + b.branch + ")" else ""
  }

  /** `GetVersionInfo`: "TSOM M.m.p", followed by " (branch)" on development builds. */
  function GetVersionInfo(b: BuildData): (s: string)
    ensures |s| > 5 && s[..5] == "TSOM "
  {
    "TSOM " + (NatToString(b.major) + ("." + (NatToString(b.minor) + ("." + (NatToString(b.patch) + BranchSuffix(b))))))
  }

  /** `GetBuildInfo`: "system - branch (commit) - date". */
  function GetBuildInfo(b: BuildData): (s: string)
    ensures |s| == |b.system| + |b.branch| + |b.commit| + |b.commitDate| + 9
    ensures s[..|b.system| + 3] == b.system + " - "
    ensures s[|s| - |b.commitDate| - 3..] == " - " + b.commitDate
    ensures s[|b.system| + 3..|s| - |b.commitDate| - 3] == b.branch + " (" + b.commit + ")"
  {
    b.system + " - " + b.branch + " (" + b.commit + ") - " + b.commitDate
  }

  /** `GameVersion`: the version number packed by `BuildVersion`, whose packing is a
      parameter here. */
  function GameVersion(b: BuildData, buildVersion: (nat, nat, nat) -> nat): nat {
    buildVersion(b.major, b.minor, b.patch)
  }

  /** The version string ends with ')' exactly on development builds; release strings
      end with the last digit of the patch number. */
  lemma DevSuffix(b: BuildData)
    ensures var s := GetVersionInfo(b); IsDevVersion(b.branch) <==> s[|s| - 1] == ')'
  {
  }

  /** Two digit runs followed by text that does not continue them can only be equal
      if the runs and the texts are. */
  lemma SplitDigits(a: string, ra: string, b: string, rb: string)
    requires AllDigits(a) && AllDigits(b)
    requires ra == [] || !IsDigit(ra[0])
    requires rb == [] || !IsDigit(rb[0])
    requires a + ra == b + rb
    ensures a == b && ra == rb
  {
    if |a| == |b| {
      assert a == (a + ra)[..|a|];
      assert ra == (a + ra)[|a|..];
    } else {
      var k := if |a| < |b| then |a| else |b|;
      ConcatAt(a, ra, k);
      ConcatAt(b, rb, k);
      assert false;
    }
  }

  lemma ConcatAt(x: string, y: string, k: nat)
    requires k < |x| + |y|
    ensures (x + y)[k] == if k < |x| then x[k] else y[k - |x|]
  {
  }

  lemma DropPrefix(p: string, x: string, y: string)
    requires p + x == p + y
    ensures x == y
  {
    assert x == (p + x)[|p|..];
  }

  /** The version string identifies the version numbers, whether the build is a
      development one, and on development builds its branch. */
  lemma {:induction false} VersionInfoDetermines(b1: BuildData, b2: BuildData)
    requires GetVersionInfo(b1) == GetVersionInfo(b2)
    ensures b1.major == b2.major && b1.minor == b2.minor && b1.patch == b2.patch
    ensures IsDevVersion(b1.branch) <==> IsDevVersion(b2.branch)
    ensures IsDevVersion(b1.branch) ==> b1.branch == b2.branch
  {
    var t1, t2 := BranchSuffix(b1), BranchSuffix(b2);
    var p1, p2 := NatToString(b1.patch) + t1, NatToString(b2.patch) + t2;
    var m1, m2 := NatToString(b1.minor) + ("." + p1), NatToString(b2.minor) + ("." + p2);
    DropPrefix("TSOM ", NatToString(b1.major) + ("." + m1), NatToString(b2.major) + ("." + m2));
    SplitDigits(NatToString(b1.major), "." + m1, NatToString(b2.major), "." + m2);
    DropPrefix(".", m1, m2);
    SplitDigits(NatToString(b1.minor), "." + p1, NatToString(b2.minor), "." + p2);
    DropPrefix(".", p1, p2);
    SplitDigits(NatToString(b1.patch), t1, NatToString(b2.patch), t2);
    NatToStringInjective(b1.major, b2.major);
    NatToStringInjective(b1.minor, b2.minor);
    NatToStringInjective(b1.patch, b2.patch);
    if IsDevVersion(b1.branch) {
      assert b1.branch == t1[2..|t1| - 1];
      if IsDevVersion(b2.branch) {
        assert b2.branch == t2[2..|t2| - 1];
      }
    }
  }
}
