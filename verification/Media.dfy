/**
 Stored upload paths and the upload root of the process that opens them.  A path is the sequence of its
 components; an absolute one starts with "/".
 */
module Media {
  type Path = seq<string>

  const SLASH := "/"
  const UPLOADS := "uploads"

  predicate Absolute(p: Path) { p != [] && p[0] == SLASH }

  /** A slash is a component only at the front. */
  predicate WellFormed(p: Path) {
    forall k :: 1 <= k < |p| ==> p[k] != SLASH
  }

  predicate Relative(p: Path) { WellFormed(p) && !Absolute(p) }

  predicate Starts(p: Path, q: Path) { |p| <= |q| && q[..|p|] == p }

  /** `path` can be written relative to `root`; nothing absolute is relative to the empty path. */
  predicate Below(root: Path, path: Path) {
    Starts(root, path) && (root == [] ==> !Absolute(path))
  }

  /** Joining with an absolute path gives that path. */
  function Joined(root: Path, p: Path): Path {
    if Absolute(p) then p else root + p
  }

  function FirstUploads(p: Path): (i: nat)
    ensures i <= |p|
    ensures forall k :: 0 <= k < i ==> p[k] != UPLOADS
    ensures i < |p| ==> p[i] == UPLOADS
  {
    if p == [] || p[0] == UPLOADS then 0 else 1 + FirstUploads(p[1..])
  }

  function ArtifactPath(root: Path, stored: Path): Path {
    var relative :=
      if Below(root, stored) then stored[|root|..]
      else
        var i := FirstUploads(stored);
        if i < |stored| then stored[i + 1..] else stored;
    Joined(root, relative)
  }

  /** The root's first component named "uploads" is its last component. */
  predicate EndsInUploads(root: Path) {
    root != [] && FirstUploads(root) == |root| - 1
  }

  /**
   For which pairs of roots does every file below the one go to the same file below the other?  Exactly
   when the roots are equal, or the stored root's first "uploads" is its last component and neither
   root lies below the other.
   */
  predicate Compatible(from: Path, to: Path) {
    from == to || (EndsInUploads(from) && !Below(to, from) && !Starts(from, to))
  }

  ghost predicate Reroots(from: Path, to: Path) {
    forall f :: Relative(f) ==> ArtifactPath(to, from + f) == to + f
  }

  lemma FirstUploadsOf(p: Path, f: Path)
    requires FirstUploads(p) < |p|
    ensures FirstUploads(p + f) == FirstUploads(p)
  {
    var i, j := FirstUploads(p), FirstUploads(p + f);
    assert (p + f)[i] == UPLOADS;
    assert forall k :: 0 <= k < i ==> (p + f)[k] == p[k];
  }

  /** A file below the one root is not below the other, or the roots are comparable. */
  lemma BelowBoth(from: Path, to: Path, f: Path)
    requires Relative(f) && Below(to, from + f) && from != []
    ensures Below(to, from) || Starts(from, to)
  {
    if |to| <= |from| {
      assert (from + f)[..|to|] == from[..|to|];
    } else {
      assert (from + f)[..|to|][..|from|] == from;
    }
  }

  lemma CompatibleReroots(from: Path, to: Path, f: Path)
    requires WellFormed(from) && WellFormed(to) && Compatible(from, to) && Relative(f)
    ensures ArtifactPath(to, from + f) == to + f
  {
    if from == to {
      assert (to + f)[..|to|] == to && (to + f)[|to|..] == f;
    } else {
      FirstUploadsOf(from, f);
      if Below(to, from + f) { BelowBoth(from, to, f); }
      assert (from + f)[|from|..] == f;
    }
  }

  /** A file that goes elsewhere when the roots are not compatible. */
  lemma Astray(from: Path, to: Path) returns (f: Path)
    requires WellFormed(from) && WellFormed(to) && !Compatible(from, to)
    ensures Relative(f) && ArtifactPath(to, from + f) != to + f
  {
    if from == [] {
      f := [UPLOADS];
      assert from + f == f && FirstUploads(f) == 0;
      if Below(to, f) {
        assert to == f;
      }
    } else if Below(to, from) {
      f := [];
      assert from + f == from && to + f == to;
    } else if Starts(from, to) {
      f := to[|from|..];
      assert from + f == to && Below(to, to);
    } else {
      f := [];
      assert from + f == from && to + f == to;
    }
  }

  lemma RerootsExactlyWhenCompatible(from: Path, to: Path)
    requires WellFormed(from) && WellFormed(to)
    ensures Reroots(from, to) <==> Compatible(from, to)
  {
    if Compatible(from, to) {
      forall f | Relative(f) ensures ArtifactPath(to, from + f) == to + f { CompatibleReroots(from, to, f); }
    } else {
      var f := Astray(from, to);
    }
  }

  /** An upload root: "uploads" is its last component and no other. */
  predicate UploadRoot(root: Path) {
    && WellFormed(root) && root != [] && root[|root| - 1] == UPLOADS
    && (forall k :: 0 <= k < |root| - 1 ==> root[k] != UPLOADS)
  }

  lemma UploadRootsAreCompatible(from: Path, to: Path)
    requires UploadRoot(from) && UploadRoot(to)
    ensures Compatible(from, to)
  {
    assert FirstUploads(from) == |from| - 1;
    if Starts(to, from) {
      assert from[|to| - 1] == from[..|to|][|to| - 1] == UPLOADS;
    }
    if Starts(from, to) {
      assert to[|from| - 1] == to[..|from|][|from| - 1] == UPLOADS;
    }
  }

  /** Between two upload roots a file keeps its place, and taking it there and back changes nothing. */
  lemma ThereAndBack(here: Path, there: Path, f: Path)
    requires UploadRoot(here) && UploadRoot(there) && Relative(f)
    ensures ArtifactPath(there, here + f) == there + f
    ensures ArtifactPath(here, ArtifactPath(there, here + f)) == here + f
  {
    UploadRootsAreCompatible(here, there);
    UploadRootsAreCompatible(there, here);
    CompatibleReroots(here, there, f);
    CompatibleReroots(there, here, f);
  }

  lemma WellFormedTail(p: Path, i: nat)
    requires WellFormed(p) && 0 < i <= |p|
    ensures Relative(p[i..])
  {
    assert forall k :: 0 <= k < |p| - i ==> p[i..][k] == p[i + k];
  }

  /** Where a stored path ends up: below the root, unless it is absolute, elsewhere, and names no "uploads". */
  lemma LandsBelowExactly(root: Path, stored: Path)
    requires WellFormed(root) && WellFormed(stored) && root != []
    ensures Below(root, ArtifactPath(root, stored))
       <==> Below(root, stored) || FirstUploads(stored) < |stored| || !Absolute(stored)
  {
    if Below(root, stored) {
      WellFormedTail(stored, |root|);
    } else if FirstUploads(stored) < |stored| {
      WellFormedTail(stored, FirstUploads(stored) + 1);
    }
  }

  /** Resolving a path that is already resolved changes nothing, for any root and any stored path. */
  lemma ResolvingTwiceIsOnce(root: Path, stored: Path)
    requires WellFormed(root) && WellFormed(stored)
    ensures ArtifactPath(root, ArtifactPath(root, stored)) == ArtifactPath(root, stored)
  {
    var once := ArtifactPath(root, stored);
    if root == [] {
      if !Below(root, stored) && FirstUploads(stored) < |stored| {
        WellFormedTail(stored, FirstUploads(stored) + 1);
      }
      if Below(root, once) {
        assert once[0..] == once;
      }
    } else {
      LandsBelowExactly(root, stored);
      if Below(root, once) {
        WellFormedAbove(root, stored);
        WellFormedTail(once, |root|);
        assert once == root + once[|root|..];
      }
    }
  }

  lemma WellFormedAbove(root: Path, stored: Path)
    requires WellFormed(root) && WellFormed(stored) && root != []
    ensures WellFormed(ArtifactPath(root, stored))
  {
    if Below(root, stored) {
      WellFormedTail(stored, |root|);
    } else if FirstUploads(stored) < |stored| {
      WellFormedTail(stored, FirstUploads(stored) + 1);
    }
  }
}
