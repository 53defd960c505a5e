/**
 Version and image parsing: the unanchored expression v?(\d+)\.(\d+)(?:\.\d+)? and its two callers,
 the skew check of the worker-pool webhook, and the default images built from a cluster version.
 */
module Versions {
  import opened Basics

  /** The end of the maximal run of digits that starts at i. */
  function DigitRun(s: string, i: nat): (j: nat)
    requires i <= |s|
    ensures i <= j <= |s|
    ensures forall k :: i <= k < j ==> IsDigit(s[k])
    ensures j < |s| ==> !IsDigit(s[j])
    decreases |s| - i
  {
    if i < |s| && IsDigit(s[i]) then DigitRun(s, i + 1) else i
  }

  datatype Groups = Groups(major: string, minor: string)

  /** (\d+)\.(\d+) at position i; both runs are greedy, so neither can give digits back. */
  function NumbersAt(s: string, i: nat): Option<Groups>
    requires i <= |s|
  {
    var dot := DigitRun(s, i);
    if dot == i || dot == |s| || s[dot] != '.' then None
    else
      var end := DigitRun(s, dot + 1);
      if end == dot + 1 then None else Some(Groups(s[i..dot], s[dot + 1..end]))
  }

  function MatchAt(s: string, i: nat): Option<Groups>
    requires i <= |s|
  {
    if i < |s| && s[i] == 'v' then NumbersAt(s, i + 1) else NumbersAt(s, i)
  }

  /** FindStringSubmatch: the leftmost match. */
  function Find(s: string, i: nat): Option<Groups>
    requires i <= |s|
    decreases |s| - i
  {
    if MatchAt(s, i).Some? then MatchAt(s, i)
    else if i == |s| then None
    else Find(s, i + 1)
  }

  /** One way the expression can match: from `at`, the major digits from `digits` to `dot`, the minor digits up to `end`. */
  datatype Match = Match(at: nat, digits: nat, dot: nat, end: nat)

  ghost predicate IsMatch(s: string, m: Match) {
    && m.at <= m.digits < m.dot < m.end - 1 < |s|
    && (m.digits == m.at || (m.digits == m.at + 1 && s[m.at] == 'v'))
    && s[m.dot] == '.'
    && (forall k :: m.digits <= k < m.dot ==> IsDigit(s[k]))
    && (forall k :: m.dot < k < m.end ==> IsDigit(s[k]))
  }

  /** Leftmost first, then the optional "v", then the longer major, then the longer minor. */
  ghost predicate Preferred(m: Match, n: Match) {
    || m.at < n.at
    || (m.at == n.at && m.digits > n.digits)
    || (m.at == n.at && m.digits == n.digits && m.dot > n.dot)
    || (m.at == n.at && m.digits == n.digits && m.dot == n.dot && m.end >= n.end)
  }

  function GroupsOf(s: string, m: Match): Groups
    requires m.digits <= m.dot < m.end <= |s|
  {
    Groups(s[m.digits..m.dot], s[m.dot + 1..m.end])
  }

  lemma RunEnds(s: string, i: nat, j: nat)
    requires i <= j <= |s| && (j < |s| ==> !IsDigit(s[j]))
    requires forall k :: i <= k < j ==> IsDigit(s[k])
    ensures DigitRun(s, i) == j
    decreases j - i
  {
    if i < j { RunEnds(s, i + 1, j); }
  }

  /** Any match starting at i or later shows that Find succeeds, and no match is preferred over what Find returns. */
  lemma {:induction false} FindIsPreferred(s: string, i: nat) returns (best: Match)
    requires i <= |s|
    ensures Find(s, i).Some? ==>
              && IsMatch(s, best) && best.at >= i && Find(s, i).value == GroupsOf(s, best)
              && (forall n :: IsMatch(s, n) && n.at >= i ==> Preferred(best, n))
    ensures Find(s, i).None? ==> forall n :: IsMatch(s, n) ==> n.at < i
    decreases |s| - i
  {
    best := Match(0, 0, 0, 0);
    var digits := if i < |s| && s[i] == 'v' then i + 1 else i;
    if MatchAt(s, i).Some? {
      var dot := DigitRun(s, digits);
      best := Match(i, digits, dot, DigitRun(s, dot + 1));
    } else if i < |s| {
      best := FindIsPreferred(s, i + 1);
    }
    forall n | IsMatch(s, n) && n.at == i
      ensures MatchAt(s, i).Some? && n.digits == digits && n.dot == DigitRun(s, digits)
    {
      MatchesHere(s, n);
    }
  }

  /** A match leaves no choice but where the minor digits end. */
  lemma MatchesHere(s: string, n: Match)
    requires IsMatch(s, n)
    ensures MatchAt(s, n.at).Some?
    ensures n.digits == (if s[n.at] == 'v' then n.at + 1 else n.at) && n.dot == DigitRun(s, n.digits)
  {
    assert IsDigit(s[n.digits]);
    RunEnds(s, n.digits, n.dot);
    assert IsDigit(s[n.dot + 1]);
  }

  /** MajorMinorFromVersion; None is the error. */
  function MajorMinorFromVersion(version: string): Option<string> {
    var g := Find(version, 0);
    if g.None? then None else Some(g.value.major + "." + g.value.minor)
  }

  /** The position of the first ':' from i on, or |s|. */
  function FirstColon(s: string, i: nat): (j: nat)
    requires i <= |s|
    ensures i <= j <= |s|
    ensures forall k :: i <= k < j ==> s[k] != ':'
    ensures j < |s| ==> s[j] == ':'
    decreases |s| - i
  {
    if i == |s| || s[i] == ':' then i else FirstColon(s, i + 1)
  }

  /** MajorMinorFromImage. The tag is what follows the first colon, as strings.SplitN(image, ":", 2) has it. */
  function MajorMinorFromImage(image: string): Option<string> {
    var colon := FirstColon(image, 0);
    if colon == |image| then None
    else
      var tag := image[colon + 1..];
      if "sha256:" <= tag then None else MajorMinorFromVersion(tag)
  }

  datatype Skew = NoSkew | SkewError(imageMM: string, clusterMM: string)

  /** validateVersionSkew */
  function ValidateVersionSkew(image: string, clusterVersion: string): Skew {
    if image == "" then NoSkew
    else
      var cluster := MajorMinorFromVersion(clusterVersion);
      var img := MajorMinorFromImage(image);
      if cluster.None? || img.None? || cluster.value == img.value then NoSkew
      else SkewError(img.value, cluster.value)
  }

  function DefaultWorkerImage(version: string): string {
    "ghcr.io/peerdb-io/flow-worker:stable-" + version
  }

  function DefaultSnapshotImage(version: string): string {
    "ghcr.io/peerdb-io/flow-snapshot-worker:stable-" + version
  }

  /** Shifting a match by a prefix. */
  lemma {:induction false} RunShifts(p: string, s: string, i: nat)
    requires i <= |s|
    ensures DigitRun(p + s, |p| + i) == |p| + DigitRun(s, i)
    decreases |s| - i
  {
    if i < |s| {
      assert (p + s)[|p| + i] == s[i];
      if IsDigit(s[i]) { RunShifts(p, s, i + 1); }
    }
  }

  lemma NumbersShift(p: string, s: string, i: nat)
    requires i <= |s|
    ensures NumbersAt(p + s, |p| + i) == NumbersAt(s, i)
  {
    RunShifts(p, s, i);
    var dot := DigitRun(s, i);
    if dot < |s| {
      RunShifts(p, s, dot + 1);
      assert (p + s)[|p| + dot] == s[dot];
      assert (p + s)[|p| + i..|p| + dot] == s[i..dot];
      var end := DigitRun(s, dot + 1);
      assert (p + s)[|p| + dot + 1..|p| + end] == s[dot + 1..end];
    }
  }

  lemma {:induction false} FindShifts(p: string, s: string, i: nat)
    requires i <= |s|
    ensures Find(p + s, |p| + i) == Find(s, i)
    decreases |s| - i
  {
    NumbersShift(p, s, i);
    if i < |s| {
      assert (p + s)[|p| + i] == s[i];
      NumbersShift(p, s, i + 1);
      FindShifts(p, s, i + 1);
    }
  }

  /**
   A prefix without digits never changes what is found, even one that ends in "v": the match may then
   start earlier, but its two groups are the same.
   */
  lemma {:induction false} DigitFreePrefix(p: string, s: string, i: nat)
    requires i <= |p|
    requires forall k :: 0 <= k < |p| ==> !IsDigit(p[k])
    ensures Find(p + s, i) == Find(s, 0)
    decreases |p| - i
  {
    if i == |p| {
      FindShifts(p, s, 0);
    } else {
      DigitFreePrefix(p, s, i + 1);
      var t := p + s;
      assert t[i] == p[i];
      assert NumbersAt(t, i).None?;
      if i + 1 < |p| {
        assert t[i + 1] == p[i + 1];
        assert NumbersAt(t, i + 1).None?;
      } else {
        NumbersShift(p, s, 0);
        assert p[i] == 'v' && NumbersAt(s, 0).Some? ==> s[0] != 'v' && Find(s, 0) == NumbersAt(s, 0);
      }
    }
  }

  lemma ImageOfDigitFreeName(name: string, prefix: string, version: string)
    requires forall k :: 0 <= k < |name| ==> name[k] != ':'
    requires forall k :: 0 <= k < |prefix| ==> !IsDigit(prefix[k])
    requires !("sha256:" <= prefix + version)
    ensures MajorMinorFromImage(name + ":" + prefix + version) == MajorMinorFromVersion(version)
  {
    var image := name + ":" + prefix + version;
    ColonAfterName(image, name, 0);
    var tag := image[|name| + 1..];
    assert tag == prefix + version;
    DigitFreePrefix(prefix, version, 0);
  }

  lemma {:induction false} ColonAfterName(image: string, name: string, i: nat)
    requires i <= |name| < |image| && image[..|name|] == name && image[|name|] == ':'
    requires forall k :: 0 <= k < |name| ==> name[k] != ':'
    ensures FirstColon(image, i) == |name|
    decreases |name| - i
  {
    if i < |name| {
      assert image[i] == image[..|name|][i];
      ColonAfterName(image, name, i + 1);
    }
  }

  /** For every version string, the default images parse to exactly what the version parses to, success or failure. */
  lemma DefaultImageRoundTrip(version: string)
    ensures MajorMinorFromImage(DefaultWorkerImage(version)) == MajorMinorFromVersion(version)
    ensures MajorMinorFromImage(DefaultSnapshotImage(version)) == MajorMinorFromVersion(version)
  {
    hide MajorMinorFromImage, MajorMinorFromVersion;
    StableTag("ghcr.io/peerdb-io/flow-worker", version);
    StableTag("ghcr.io/peerdb-io/flow-snapshot-worker", version);
    assert DefaultWorkerImage(version) == "ghcr.io/peerdb-io/flow-worker" + ":" + "stable-" + version;
    assert DefaultSnapshotImage(version) == "ghcr.io/peerdb-io/flow-snapshot-worker" + ":" + "stable-" + version;
  }

  lemma StableTag(name: string, version: string)
    requires forall k :: 0 <= k < |name| ==> name[k] != ':'
    ensures MajorMinorFromImage(name + ":" + "stable-" + version) == MajorMinorFromVersion(version)
  {
    hide MajorMinorFromImage, MajorMinorFromVersion;
    assert ("stable-" + version)[1] != "sha256:"[1];
    ImageOfDigitFreeName(name, "stable-", version);
  }

  /** Hence a default image never skews against the version it was built from, and against any other
      version it skews exactly when the two versions parse and differ. */
  lemma DefaultImageSkew(version: string, other: string)
    ensures ValidateVersionSkew(DefaultWorkerImage(version), version) == NoSkew
    ensures ValidateVersionSkew(DefaultSnapshotImage(version), version) == NoSkew
    ensures ValidateVersionSkew(DefaultWorkerImage(version), other).SkewError? <==>
            MajorMinorFromVersion(version).Some? && MajorMinorFromVersion(other).Some?
            && MajorMinorFromVersion(version) != MajorMinorFromVersion(other)
    ensures ValidateVersionSkew(DefaultSnapshotImage(version), other) == ValidateVersionSkew(DefaultWorkerImage(version), other)
  {
    DefaultImageRoundTrip(version);
  }

  /** "v" + M + "." + m + suffix parses to M.m for digit strings M and m and a suffix that does not go on with a digit. */
  lemma CanonicalVersion(major: string, minor: string, suffix: string)
    requires |major| > 0 && forall k :: 0 <= k < |major| ==> IsDigit(major[k])
    requires |minor| > 0 && forall k :: 0 <= k < |minor| ==> IsDigit(minor[k])
    requires suffix == "" || !IsDigit(suffix[0])
    ensures MajorMinorFromVersion("v" + major + "." + minor + suffix) == Some(major + "." + minor)
  {
    var s := "v" + major + "." + minor + suffix;
    var dot := 1 + |major|;
    assert s[0] == 'v' && s[dot] == '.';
    assert forall k :: 1 <= k < dot ==> s[k] == major[k - 1];
    RunEnds(s, 1, dot);
    var end := dot + 1 + |minor|;
    assert forall k :: dot < k < end ==> s[k] == minor[k - dot - 1];
    RunEnds(s, dot + 1, end);
    assert s[1..dot] == major && s[dot + 1..end] == minor;
  }

  /** An image pinned to a digest, or without a tag, has no version and never skews. */
  lemma UnversionedImage(name: string, digest: string, version: string)
    requires forall k :: 0 <= k < |name| ==> name[k] != ':'
    ensures MajorMinorFromImage(name) == None && MajorMinorFromImage(name + ":" + "sha256:" + digest) == None
    ensures ValidateVersionSkew(name, version) == NoSkew && ValidateVersionSkew(name + ":" + "sha256:" + digest, version) == NoSkew
  {
    var image := name + ":" + "sha256:" + digest;
    ColonAfterName(image, name, 0);
    assert image[|name| + 1..] == "sha256:" + digest;
    NoColon(name, 0);
  }

  lemma {:induction false} NoColon(name: string, i: nat)
    requires i <= |name| && forall k :: 0 <= k < |name| ==> name[k] != ':'
    ensures FirstColon(name, i) == |name|
    decreases |name| - i
  {
    if i < |name| { NoColon(name, i + 1); }
  }

  /** A pinned image of any name and digit-free tag prefix skews exactly when both versions parse and differ, and says so. */
  lemma PinnedImageSkew(name: string, prefix: string, version: string, cluster: string)
    requires forall k :: 0 <= k < |name| ==> name[k] != ':'
    requires forall k :: 0 <= k < |prefix| ==> !IsDigit(prefix[k])
    requires !("sha256:" <= prefix + version)
    ensures var skew, mine, theirs :=
              ValidateVersionSkew(name + ":" + prefix + version, cluster), MajorMinorFromVersion(version), MajorMinorFromVersion(cluster);
            if mine.Some? && theirs.Some? && mine != theirs then skew == SkewError(mine.value, theirs.value) else skew == NoSkew
  {
    hide MajorMinorFromImage, MajorMinorFromVersion;
    ImageOfDigitFreeName(name, prefix, version);
  }

  lemma {:induction false} NoDotNoVersion(s: string, i: nat)
    requires i <= |s| && forall k :: 0 <= k < |s| ==> s[k] != '.'
    ensures Find(s, i).None?
    decreases |s| - i
  {
    if i < |s| { NoDotNoVersion(s, i + 1); }
  }

  /** The usual spelling of a digest, name@sha256:hex, has no version either: what follows its first colon has no dot. */
  lemma DigestReference(name: string, hex: string)
    requires forall k :: 0 <= k < |name| ==> name[k] != ':'
    requires forall k :: 0 <= k < |hex| ==> hex[k] != '.' && hex[k] != ':'
    ensures MajorMinorFromImage(name + "@sha256" + ":" + hex) == None
  {
    var image, head := name + "@sha256" + ":" + hex, name + "@sha256";
    ColonAfterName(image, head, 0);
    assert image[|head| + 1..] == hex;
    NoDotNoVersion(hex, 0);
  }
}
