/**
 * A dependency resolved to one commit of a Git or Mercurial repository:
 * the record itself, its display forms, its lock-file notation and its
 * identity (equality and hash).
 */
module Vcs {
  import opened Wrappers

  /** Java's `long`. */
  type Long = x: int | -0x8000_0000_0000_0000 <= x < 0x8000_0000_0000_0000

  /** Java's `int`, the type of a hash code. */
  type Int32 = x: int | -0x8000_0000 <= x < 0x8000_0000

  /** The version-control systems the build tool knows about. */
  datatype VcsType = Git | Mercurial | Svn | Bazaar {
    /** The identifier written under the `vcs` key of a lock entry. */
    function Name(): (r: string)
      ensures r != ""
    {
      match this
      case Git => "git"
      case Mercurial => "mercurial"
      case Svn => "svn"
      case Bazaar => "bazaar"
    }
  }

  /** A VCS type that has a concrete resolved-dependency variant. */
  type ResolvedVcsType = t: VcsType | t == Git || t == Mercurial witness Git

  /** The owning package a dependency was declared in; `NoPackage` is Java's `null`. */
  datatype PackageRef = NoPackage | Package(id: nat)

  /** The declaration a dependency was resolved from. */
  datatype NotationDependency = NotationDependency(
    name: string,
    tag: Option<string>,
    subpackages: set<string>,
    firstLevel: bool,
    pkg: PackageRef)

  /**
   * The resolved record. `version` is the full commit id. `vcsType` is fixed
   * by the concrete variant (GitResolvedDependency or
   * MercurialResolvedDependency), so only the two resolvable types occur.
   */
  datatype VcsResolvedDependency = VcsResolvedDependency(
    name: string,
    version: string,
    commitTime: Long,
    url: string,
    tag: Option<string>,
    vcsType: ResolvedVcsType,
    subpackages: set<string>,
    firstLevel: bool,
    pkg: PackageRef)

  /** Length of the commit-id prefix shown to users. */
  const CommitPrefixLength: nat := 7

  /** The subpackage entry that stands for "every package under the root". */
  const AllDescendants: string := "..."

  /** Keys of a lock entry. */
  const NameKey: string := "name"
  const VcsKey: string := "vcs"
  const UrlKey: string := "url"
  const CommitKey: string := "commit"
  const SubpackagesKey: string := "subpackages"

  /** A value in a lock entry: a string, or a list of strings. */
  datatype LockValue = Text(text: string) | Items(items: seq<string>)

  predicate ContainsAllSubpackages(d: VcsResolvedDependency) {
    AllDescendants in d.subpackages
  }

  /**
   * The record as its variant's constructor leaves it, before the builder
   * copies in the declaration-derived fields.
   */
  function NewVariant(vcsType: ResolvedVcsType, name: string, url: string,
                      commitId: string, commitTime: Long): (d: VcsResolvedDependency)
    ensures d.vcsType == vcsType && d.name == name && d.url == url
    ensures d.version == commitId && d.commitTime == commitTime
    ensures d.tag == None && d.subpackages == {} && !d.firstLevel && d.pkg == NoPackage
    ensures !ContainsAllSubpackages(d)
  {
    VcsResolvedDependency(name, commitId, commitTime, url, None, vcsType, {}, false, NoPackage)
  }

  // ---------------------------------------------------------------------
  // Display forms
  // ---------------------------------------------------------------------

  /** The short form of the version: the commit prefix, after the tag if there is one. */
  function FormatVersion(d: VcsResolvedDependency): (r: string)
    requires |d.version| >= CommitPrefixLength
    ensures |r| == if d.tag.None? then CommitPrefixLength else |d.tag.value| + CommitPrefixLength + 2
    ensures d.tag.None? ==> r <= d.version
    ensures d.tag.Some? ==> d.tag.value <= r
  {
    match d.tag
    case Some(t) => t + "(" + d.version[..CommitPrefixLength] + ")"
    case None => d.version[..CommitPrefixLength]
  }

  /** Diagnostic form: the name and the full commit id around a `#`. */
  function ToString(d: VcsResolvedDependency): (r: string)
    ensures |r| == |d.name| + 1 + |d.version|
    ensures d.name <= r && r[|d.name|] == '#'
    ensures r[|d.name| + 1..] == d.version
  {
    d.name + "#" + d.version
  }

  /** What the short form shows: exactly the commit prefix, or tag, `(`, prefix, `)`. */
  lemma FormatVersionShape(d: VcsResolvedDependency)
    requires |d.version| >= CommitPrefixLength
    ensures d.tag.None? ==> FormatVersion(d) == d.version[..7] && |FormatVersion(d)| == 7
    ensures d.tag.Some? ==>
      var r, t := FormatVersion(d), d.tag.value;
      |r| == |t| + 9 && r[..|t|] == t && r[|t|] == '(' &&
      r[|t| + 1..|t| + 8] == d.version[..7] && r[|t| + 8] == ')'
  {
  }

  lemma {:induction false} TaggedInjective(t1: string, p1: string, t2: string, p2: string)
    requires |p1| == |p2|
    requires t1 + "(" + p1 + ")" == t2 + "(" + p2 + ")"
    ensures t1 == t2 && p1 == p2
  {
    var s := t1 + "(" + p1 + ")";
    assert |t1| == |t2|;
    assert t1 == s[..|t1|] == t2;
    assert p1 == s[|t1| + 1..|t1| + 1 + |p1|] == p2;
  }

  /**
   * The short form loses nothing beyond the commit prefix: two records show the
   * same short form exactly when they have the same tag and the same prefix.
   */
  lemma FormatVersionInjective(a: VcsResolvedDependency, b: VcsResolvedDependency)
    requires |a.version| >= CommitPrefixLength && |b.version| >= CommitPrefixLength
    ensures FormatVersion(a) == FormatVersion(b) <==>
            a.tag == b.tag && a.version[..7] == b.version[..7]
  {
    if FormatVersion(a) == FormatVersion(b) {
      match (a.tag, b.tag)
      case (Some(s), Some(t)) =>
        TaggedInjective(s, a.version[..7], t, b.version[..7]);
      case _ =>
    }
  }

  /** The worked cases: an untagged and a tagged commit. */
  lemma FormatVersionExamples()
    ensures FormatVersion(VcsResolvedDependency("github.com/foo/bar", "a1b2c3d4e5f6", 0, "u",
                                                None, Git, {}, false, NoPackage)) == "a1b2c3d"
    ensures FormatVersion(VcsResolvedDependency("github.com/foo/bar", "a1b2c3d4e5f6", 0, "u",
                                                Some("v1.2.0"), Git, {}, false, NoPackage)) == "v1.2.0(a1b2c3d)"
  {
  }

  /** The position of the first `#` in `s`, or `|s|` when there is none. */
  function IndexOfHash(s: string): (i: nat)
    ensures i <= |s|
    ensures i < |s| ==> s[i] == '#'
    ensures forall j :: 0 <= j < i ==> s[j] != '#'
  {
    if s == [] then 0
    else if s[0] == '#' then 0
    else 1 + IndexOfHash(s[1..])
  }

  /**
   * The diagnostic form keeps name and full commit id apart: when the name holds
   * no `#`, the text before the first `#` is the name and the text after it is
   * the whole, untruncated commit id.
   */
  lemma ToStringRoundTrip(d: VcsResolvedDependency)
    requires '#' !in d.name
    ensures var r := ToString(d);
      IndexOfHash(r) == |d.name| &&
      r[..IndexOfHash(r)] == d.name && r[IndexOfHash(r) + 1..] == d.version
  {
    var r := ToString(d);
    assert r[|d.name|] == '#';
    assert forall j :: 0 <= j < |d.name| ==> r[j] == d.name[j];
  }

  /** For `#`-free names, two records print alike exactly when name and commit id agree. */
  lemma ToStringInjective(a: VcsResolvedDependency, b: VcsResolvedDependency)
    requires '#' !in a.name && '#' !in b.name
    ensures ToString(a) == ToString(b) <==> a.name == b.name && a.version == b.version
  {
    ToStringRoundTrip(a);
    ToStringRoundTrip(b);
  }

  /** A `#` inside a name makes two different records print alike. */
  lemma ToStringAmbiguousWithHashInName()
    ensures
      var a := VcsResolvedDependency("a#b", "c", 0, "u", None, Git, {}, false, NoPackage);
      var b := VcsResolvedDependency("a", "b#c", 0, "u", None, Git, {}, false, NoPackage);
      ToString(a) == ToString(b) && a.version != b.version
  {
  }

  // ---------------------------------------------------------------------
  // Lock notation
  // ---------------------------------------------------------------------

  /**
   * Some enumeration of a set, each element once. Java's `new ArrayList<>(set)`
   * lists a hash set in an order this model does not fix.
   */
  ghost function SetToSeq(s: set<string>): (r: seq<string>)
    ensures |r| == |s|
    ensures forall x :: x in r <==> x in s
    ensures multiset(r) == multiset(s)
    decreases s
  {
    if s == {} then []
    else
      var x :| x in s;
      var rest := SetToSeq(s - {x});
      assert multiset(s) == multiset{x} + multiset(s - {x});
      [x] + rest
  }

  /** The lock-file entry of a record. */
  ghost function ToLockedNotation(d: VcsResolvedDependency): (m: map<string, LockValue>)
    ensures NameKey in m && m[NameKey] == Text(d.name)
    ensures CommitKey in m && m[CommitKey] == Text(d.version)
    ensures SubpackagesKey in m <==> !ContainsAllSubpackages(d)
  {
    var ret := map[NameKey := Text(d.name), VcsKey := Text(d.vcsType.Name()),
                   UrlKey := Text(d.url), CommitKey := Text(d.version)];
    if !ContainsAllSubpackages(d) then ret[SubpackagesKey := Items(SetToSeq(d.subpackages))]
    else ret
  }

  /**
   * The four fixed keys always carry name, VCS name, url and full commit id; the
   * subpackage key is there exactly when not all subpackages are used, and then
   * lists each subpackage once; no other key appears.
   */
  lemma LockedNotationContents(d: VcsResolvedDependency)
    ensures var m := ToLockedNotation(d);
      m.Keys == {NameKey, VcsKey, UrlKey, CommitKey} +
                (if ContainsAllSubpackages(d) then {} else {SubpackagesKey}) &&
      m[NameKey] == Text(d.name) && m[VcsKey] == Text(d.vcsType.Name()) &&
      m[UrlKey] == Text(d.url) && m[CommitKey] == Text(d.version) &&
      (SubpackagesKey in m <==> !ContainsAllSubpackages(d)) &&
      (SubpackagesKey in m ==>
         m[SubpackagesKey].Items? &&
         multiset(m[SubpackagesKey].items) == multiset(d.subpackages) &&
         (forall x :: x in m[SubpackagesKey].items <==> x in d.subpackages))
  {
  }

  lemma {:induction false} SameMultisetSameSet(s: set<string>, t: set<string>)
    requires multiset(s) == multiset(t)
    ensures s == t
  {
    forall x | x in s ensures x in t {
      assert multiset(s)[x] == 1;
    }
    forall x | x in t ensures x in s {
      assert multiset(t)[x] == 1;
    }
  }

  /**
   * A lock entry pins down the record's identity and the subpackages it uses:
   * two records with the same entry are equal, and either both use all
   * subpackages or both use the same set.
   */
  lemma {:induction false} LockedNotationDeterminesIdentity(a: VcsResolvedDependency, b: VcsResolvedDependency)
    requires ToLockedNotation(a) == ToLockedNotation(b)
    ensures Equals(a, b)
    ensures ContainsAllSubpackages(a) <==> ContainsAllSubpackages(b)
    ensures !ContainsAllSubpackages(a) ==> a.subpackages == b.subpackages
  {
    var m := ToLockedNotation(a);
    LockedNotationContents(a);
    LockedNotationContents(b);
    assert a.vcsType.Name() == b.vcsType.Name();
    if !ContainsAllSubpackages(a) {
      SameMultisetSameSet(a.subpackages, b.subpackages);
    }
  }

  /**
   * Equal records that use the same subpackages write entries with the same keys,
   * the same fixed values and subpackage lists with the same elements.
   */
  lemma LockedNotationStable(a: VcsResolvedDependency, b: VcsResolvedDependency)
    requires Equals(a, b) && a.subpackages == b.subpackages
    ensures var ma, mb := ToLockedNotation(a), ToLockedNotation(b);
      ma.Keys == mb.Keys &&
      (forall k :: k in ma && k != SubpackagesKey ==> ma[k] == mb[k]) &&
      (SubpackagesKey in ma ==>
         ma[SubpackagesKey].Items? && mb[SubpackagesKey].Items? &&
         multiset(ma[SubpackagesKey].items) == multiset(mb[SubpackagesKey].items))
  {
    LockedNotationContents(a);
    LockedNotationContents(b);
  }

  // ---------------------------------------------------------------------
  // Identity
  // ---------------------------------------------------------------------

  /** Equality of the base class: same name and same version. */
  predicate BaseEquals(a: VcsResolvedDependency, b: VcsResolvedDependency) {
    a.name == b.name && a.version == b.version
  }

  /** Base equality, then the same VCS type and the same url. */
  predicate Equals(a: VcsResolvedDependency, b: VcsResolvedDependency): (r: bool)
    ensures r ==> ToString(a) == ToString(b)
    ensures r ==> a.vcsType.Name() == b.vcsType.Name()
  {
    BaseEquals(a, b) && a.vcsType == b.vcsType && a.url == b.url
  }

  /**
   * The hash of (url, version, name, vcsType) under a given combining function:
   * every record equal to `d` hashes to the same value.
   */
  function HashCode(d: VcsResolvedDependency, combine: (string, string, string, VcsType) -> Int32): (r: Int32)
    ensures forall e: VcsResolvedDependency :: Equals(d, e) ==> combine(e.url, e.version, e.name, e.vcsType) == r
  {
    combine(d.url, d.version, d.name, d.vcsType)
  }

  /** Equality is exactly agreement on the identity 4-tuple (VCS type, url, name, commit id). */
  lemma EqualsIsIdentity(a: VcsResolvedDependency, b: VcsResolvedDependency)
    ensures Equals(a, b) <==>
            (a.vcsType, a.url, a.name, a.version) == (b.vcsType, b.url, b.name, b.version)
  {
  }

  /** Equality is reflexive, symmetric and transitive. */
  lemma EqualsIsEquivalence()
    ensures forall a :: Equals(a, a)
    ensures forall a, b :: Equals(a, b) ==> Equals(b, a)
    ensures forall a, b, c :: Equals(a, b) && Equals(b, c) ==> Equals(a, c)
  {
  }

  /** Tag, commit time, subpackages, first-level flag and package do not take part in identity. */
  lemma EqualsIgnoresDeclaration(d: VcsResolvedDependency, tag: Option<string>, commitTime: Long,
                                 subpackages: set<string>, firstLevel: bool, pkg: PackageRef)
    ensures var e := d.(tag := tag, commitTime := commitTime, subpackages := subpackages,
                        firstLevel := firstLevel, pkg := pkg);
      Equals(d, e) && forall combine :: HashCode(d, combine) == HashCode(e, combine)
  {
  }

  /** Equal records hash alike, whatever the combining function. */
  lemma EqualsConsistentWithHashCode(a: VcsResolvedDependency, b: VcsResolvedDependency,
                                     combine: (string, string, string, VcsType) -> Int32)
    requires Equals(a, b)
    ensures HashCode(a, combine) == HashCode(b, combine)
  {
  }
}
