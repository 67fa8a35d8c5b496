/**
 * `LockedImage`, the content-addressed record written to the lockfile:
 * its hand-written equality, its derived ordering and its `VendedArtifact` view.
 */
module LockedImages {
  import opened Externals

  datatype LockedImage = LockedImage(
    name: string,
    version: Version,
    vendor: string,
    source: string,
    digest: string)
  {
    /** `VendedArtifact::artifact_name` */
    function ArtifactName(): string { name }

    /** `VendedArtifact::vendor_name` */
    function VendorName(): string { vendor }

    /** `VendedArtifact::version` */
    function ArtifactVersion(): Version { version }

    /**
     * The hand-written `PartialEq`: only the source and the digest take part,
     * so two records are equal exactly when they differ at most in name,
     * version and vendor.
     */
    predicate Equals(other: LockedImage): (r: bool)
      ensures r <==> other == this.(name := other.name, version := other.version, vendor := other.vendor)
    {
      source == other.source && digest == other.digest
    }
  }

  lemma EqualsIsEquivalence(a: LockedImage, b: LockedImage, c: LockedImage)
    ensures a.Equals(a)
    ensures a.Equals(b) ==> b.Equals(a)
    ensures a.Equals(b) && b.Equals(c) ==> a.Equals(c)
  {
  }

  // ---------------------------------------------------------------------
  // The derived `Ord`: lexicographic over the fields in declaration order.
  // ---------------------------------------------------------------------

  datatype Ordering = Less | Equal | Greater {
    function Reverse(): Ordering {
      match this
      case Less => Greater
      case Equal => Equal
      case Greater => Less
    }

    /** `Ordering::then`: this ordering unless it is `Equal`, in which case `next`. */
    function Then(next: Ordering): Ordering {
      if this == Equal then next else this
    }
  }

  /** `Ord` on `String`: lexicographic by character (UTF-8 byte order agrees with code-point order). */
  function CompareStrings(a: string, b: string): Ordering
    decreases |a|
  {
    if a == [] then (if b == [] then Equal else Less)
    else if b == [] then Greater
    else if a[0] < b[0] then Less
    else if b[0] < a[0] then Greater
    else CompareStrings(a[1..], b[1..])
  }

  function CompareNats(a: nat, b: nat): Ordering {
    if a < b then Less else if b < a then Greater else Equal
  }

  function CompareVersions(a: Version, b: Version): Ordering {
    CompareNats(a.major, b.major).Then(
      CompareNats(a.minor, b.minor).Then(
        CompareNats(a.patch, b.patch)))
  }

  /** The derived `Ord` of `LockedImage`. */
  function Compare(a: LockedImage, b: LockedImage): Ordering {
    CompareStrings(a.name, b.name).Then(
      CompareVersions(a.version, b.version).Then(
        CompareStrings(a.vendor, b.vendor).Then(
          CompareStrings(a.source, b.source).Then(
            CompareStrings(a.digest, b.digest)))))
  }

  lemma {:induction false} CompareStringsEqual(a: string, b: string)
    ensures CompareStrings(a, b) == Equal <==> a == b
    decreases |a|
  {
    if a != [] && b != [] && a[0] == b[0] {
      CompareStringsEqual(a[1..], b[1..]);
      assert a == [a[0]] + a[1..] && b == [b[0]] + b[1..];
    }
  }

  lemma {:induction false} CompareStringsReverse(a: string, b: string)
    ensures CompareStrings(b, a) == CompareStrings(a, b).Reverse()
    decreases |a|
  {
    if a != [] && b != [] && a[0] == b[0] {
      CompareStringsReverse(a[1..], b[1..]);
    }
  }

  lemma {:induction false} CompareStringsTransitive(a: string, b: string, c: string)
    requires CompareStrings(a, b) == Less && CompareStrings(b, c) == Less
    ensures CompareStrings(a, c) == Less
    decreases |a|
  {
    if a != [] && b != [] && c != [] && a[0] == b[0] && b[0] == c[0] {
      CompareStringsTransitive(a[1..], b[1..], c[1..]);
    }
  }

  /** The three laws of a total order for one string field, for every pair among a, b, c. */
  lemma StringOrderLaws(a: string, b: string, c: string)
    ensures CompareStrings(a, b) == Equal <==> a == b
    ensures CompareStrings(b, c) == Equal <==> b == c
    ensures CompareStrings(a, c) == Equal <==> a == c
    ensures CompareStrings(b, a) == CompareStrings(a, b).Reverse()
    ensures CompareStrings(a, b) == Less && CompareStrings(b, c) == Less ==> CompareStrings(a, c) == Less
  {
    CompareStringsEqual(a, b);
    CompareStringsEqual(b, c);
    CompareStringsEqual(a, c);
    CompareStringsReverse(a, b);
    if CompareStrings(a, b) == Less && CompareStrings(b, c) == Less {
      CompareStringsTransitive(a, b, c);
    }
  }

  /** `Compare` says `Equal` exactly for structurally identical records. */
  lemma CompareEqualIffIdentical(a: LockedImage, b: LockedImage)
    ensures Compare(a, b) == Equal <==> a == b
  {
    CompareStringsEqual(a.name, b.name);
    CompareStringsEqual(a.vendor, b.vendor);
    CompareStringsEqual(a.source, b.source);
    CompareStringsEqual(a.digest, b.digest);
  }

  lemma CompareReverse(a: LockedImage, b: LockedImage)
    ensures Compare(b, a) == Compare(a, b).Reverse()
  {
    CompareStringsReverse(a.name, b.name);
    CompareStringsReverse(a.vendor, b.vendor);
    CompareStringsReverse(a.source, b.source);
    CompareStringsReverse(a.digest, b.digest);
  }

  lemma CompareTransitive(a: LockedImage, b: LockedImage, c: LockedImage)
    requires Compare(a, b) == Less && Compare(b, c) == Less
    ensures Compare(a, c) == Less
  {
    StringOrderLaws(a.name, b.name, c.name);
    StringOrderLaws(a.vendor, b.vendor, c.vendor);
    StringOrderLaws(a.source, b.source, c.source);
    StringOrderLaws(a.digest, b.digest, c.digest);
  }

  /** Whatever the derived order calls `Equal`, the hand-written equality calls equal. */
  lemma CompareEqualImpliesEquals(a: LockedImage, b: LockedImage)
    requires Compare(a, b) == Equal
    ensures a.Equals(b)
  {
    CompareEqualIffIdentical(a, b);
  }

  /**
   * The converse fails: renaming a record keeps it equal to the original,
   * yet the derived order puts the two apart.
   */
  lemma DerivedOrderSplitsEqualImages(a: LockedImage, otherName: string)
    requires otherName != a.name
    ensures a.Equals(a.(name := otherName))
    ensures Compare(a, a.(name := otherName)) != Equal
  {
    CompareStringsEqual(a.name, otherName);
  }

  // ---------------------------------------------------------------------
  // The ordering the equality calls for: by (source, digest) only.
  // ---------------------------------------------------------------------

  function CompareIdentity(a: LockedImage, b: LockedImage): Ordering {
    CompareStrings(a.source, b.source).Then(CompareStrings(a.digest, b.digest))
  }

  lemma CompareIdentityAgreesWithEquals(a: LockedImage, b: LockedImage)
    ensures CompareIdentity(a, b) == Equal <==> a.Equals(b)
  {
    CompareStringsEqual(a.source, b.source);
    CompareStringsEqual(a.digest, b.digest);
  }

  lemma CompareIdentityReverse(a: LockedImage, b: LockedImage)
    ensures CompareIdentity(b, a) == CompareIdentity(a, b).Reverse()
  {
    CompareStringsReverse(a.source, b.source);
    CompareStringsReverse(a.digest, b.digest);
  }

  lemma CompareIdentityTransitive(a: LockedImage, b: LockedImage, c: LockedImage)
    requires CompareIdentity(a, b) == Less && CompareIdentity(b, c) == Less
    ensures CompareIdentity(a, c) == Less
  {
    StringOrderLaws(a.source, b.source, c.source);
    StringOrderLaws(a.digest, b.digest, c.digest);
  }
}
