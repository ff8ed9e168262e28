# Resolved VCS dependencies, modelled in Dafny

This project models gogradle's `VcsResolvedDependency`. It is a dependency of a Go
build that has been resolved to one commit of a Git or Mercurial repository. The
model covers it together with its `GitMercurialResolvedDependencyBuilder`.

- `wrappers.dfy`, module `Wrappers`: `Option` (absent values, Java's `null`) and `Result`
  (a failing call).
- `vcs_resolved_dependency.dfy`, module `Vcs`. The record is a datatype,
  `VcsResolvedDependency`, with these fields:
  - `name`;
  - `version`, the full commit id;
  - `commitTime`, a Java `long`;
  - `url`;
  - `tag`, which may be absent;
  - `vcsType`, which is restricted to Git and Mercurial because only those two concrete
    variants exist;
  - `subpackages`, `firstLevel` and the owning package `pkg`.

  `getUrl` and `getVcsType` are the datatype's selectors `url` and `vcsType`. The
  module's operations are `FormatVersion`, `ToString`, `ToLockedNotation`,
  `Equals` and `HashCode`. The lemmas about them state what the source promises.
- `resolved_dependency_builder.dfy`, module `VcsBuilder`. The builder is a class
  whose fields are updated in place:
  - the `With*` setters may modify only their own field, and they return the builder
    itself;
  - `Build` copies the builder's steps. It fails for VCS types other than Git and
    Mercurial. Otherwise it creates the matching variant and then copies tag,
    subpackages, first-level flag and package from the declaration, one by one.

The collaborators below are not part of this model, so the model makes these assumptions about them:
- Base-class equality (`AbstractResolvedDependency.equals`) is equality of name and
  version (`Vcs.BaseEquals`). The hash at line 99 reads the same fields.
- `containsAllSubpackages` means the subpackage set holds the sentinel `"..."`.
- The `VcsType` enumeration is modelled with four members: Git, Mercurial, Svn and
  Bazaar. Their lock identifiers `"git"`, `"mercurial"`, `"svn"` and `"bazaar"` are
  stand-ins. The proofs use only the fact that Git's and Mercurial's identifiers
  differ.
- `Objects.hash` is a parameter `combine` of (url, version, name, VCS type).

`build()` (lines 137-150) checks only the VCS type. It passes the url and the commit id
to the variant's constructor unchecked, so a missing url or commit id is not rejected
there. The model therefore treats a present declaration, url and commit id as what
`Build`'s caller must supply.

## Model

| member | source | states |
|---|---|---|
| `Vcs.NewVariant` | src/main/java/com/github/blindpirate/gogradle/vcs/VcsResolvedDependency.java:41-47 | the record as the Git or Mercurial constructor leaves it (lines 141 and 143): the given VCS type, name, url, commit id and commit time; no tag, an empty subpackage set (so not all subpackages), `false` and no package |
| `Vcs.FormatVersion` | src/main/java/com/github/blindpirate/gogradle/vcs/VcsResolvedDependency.java:73-80 | requires a commit id of at least 7 characters; the short form has 7 characters and is a prefix of the commit id when there is no tag; with a tag it starts with the tag and is 9 characters longer than it |
| `Vcs.ToString` | src/main/java/com/github/blindpirate/gogradle/vcs/VcsResolvedDependency.java:82-85 | the text starts with the name, has `#` right after it, and ends with the full commit id; its length is the name's plus one plus the commit id's |
| `Vcs.ToLockedNotation` | src/main/java/com/github/blindpirate/gogradle/vcs/VcsResolvedDependency.java:60-71 | `name` maps to the name and `commit` to the full commit id; `subpackages` is present if and only if not all subpackages are used |
| `Vcs.Equals` | src/main/java/com/github/blindpirate/gogradle/vcs/VcsResolvedDependency.java:87-95 | equal records print alike and write the same VCS identifier |
| `Vcs.HashCode` | src/main/java/com/github/blindpirate/gogradle/vcs/VcsResolvedDependency.java:97-100 | every record equal to the given one hashes to the same value under the same combining function |
| `Vcs.FormatVersionShape` | src/main/java/com/github/blindpirate/gogradle/vcs/VcsResolvedDependency.java:73-80 | with no tag the short form is exactly the first 7 characters of the commit id; with a tag it is the tag, `(`, the 7-character prefix, `)`, so it is 9 characters longer than the tag; the commit id must have at least 7 characters |
| `Vcs.FormatVersionInjective` | src/main/java/com/github/blindpirate/gogradle/vcs/VcsResolvedDependency.java:73-80 | two records show the same short form if and only if they have the same tag and the same 7-character commit prefix |
| `Vcs.FormatVersionExamples` | src/main/java/com/github/blindpirate/gogradle/vcs/VcsResolvedDependency.java:73-80 | commit `a1b2c3d4e5f6` shows as `a1b2c3d`, and with tag `v1.2.0` as `v1.2.0(a1b2c3d)` |
| `Vcs.ToStringRoundTrip` | src/main/java/com/github/blindpirate/gogradle/vcs/VcsResolvedDependency.java:82-85 | for a name without `#`, the text before the first `#` of `name#commit` is the name and the text after it is the full, untruncated commit id |
| `Vcs.ToStringInjective` | src/main/java/com/github/blindpirate/gogradle/vcs/VcsResolvedDependency.java:82-85 | for `#`-free names, two records print alike if and only if their names and commit ids agree |
| `Vcs.ToStringAmbiguousWithHashInName` | src/main/java/com/github/blindpirate/gogradle/vcs/VcsResolvedDependency.java:82-85 | a `#` inside a name lets two records with different commit ids print alike |
| `Vcs.SetToSeq` | src/main/java/com/github/blindpirate/gogradle/vcs/VcsResolvedDependency.java:68 | the list built from the subpackage set has each element of the set exactly once and nothing else |
| `Vcs.LockedNotationContents` | src/main/java/com/github/blindpirate/gogradle/vcs/VcsResolvedDependency.java:60-71 | `name`, `vcs`, `url` and `commit` always map to the name, the VCS identifier, the url and the full commit id; `subpackages` is present if and only if not all subpackages are used, and then it lists exactly the subpackage set; no other key appears |
| `Vcs.LockedNotationDeterminesIdentity` | src/main/java/com/github/blindpirate/gogradle/vcs/VcsResolvedDependency.java:60-71 | records with the same lock entry are equal, and either both use all subpackages or both use the same subpackage set |
| `Vcs.LockedNotationStable` | src/main/java/com/github/blindpirate/gogradle/vcs/VcsResolvedDependency.java:60-71 | equal records that use the same subpackages produce lock entries with the same keys, the same values under every key but `subpackages`, and subpackage lists with the same elements, whatever their tag, commit time, flag or package |
| `Vcs.EqualsIsIdentity` | src/main/java/com/github/blindpirate/gogradle/vcs/VcsResolvedDependency.java:87-95 | two records are equal if and only if they agree on VCS type, url, name and commit id |
| `Vcs.EqualsIsEquivalence` | src/main/java/com/github/blindpirate/gogradle/vcs/VcsResolvedDependency.java:87-95 | equality is reflexive, symmetric and transitive |
| `Vcs.EqualsIgnoresDeclaration` | src/main/java/com/github/blindpirate/gogradle/vcs/VcsResolvedDependency.java:87-100 | changing tag, commit time, subpackages, first-level flag or package leaves a record equal to itself and leaves its hash unchanged |
| `Vcs.EqualsConsistentWithHashCode` | src/main/java/com/github/blindpirate/gogradle/vcs/VcsResolvedDependency.java:97-100 | equal records have equal hashes for every combining function of url, version, name and VCS type |
| `VcsBuilder.GitMercurialResolvedDependencyBuilder.constructor` | src/main/java/com/github/blindpirate/gogradle/vcs/VcsResolvedDependency.java:102-115 | a new builder holds the given VCS type and no declaration, url or commit id, and commit time 0 |
| `VcsBuilder.GitMercurialResolvedDependencyBuilder.WithUrl` | src/main/java/com/github/blindpirate/gogradle/vcs/VcsResolvedDependency.java:117-120 | sets the url, changes no other field, and returns the same builder |
| `VcsBuilder.GitMercurialResolvedDependencyBuilder.WithNotationDependency` | src/main/java/com/github/blindpirate/gogradle/vcs/VcsResolvedDependency.java:122-125 | sets the declaration, changes no other field, and returns the same builder |
| `VcsBuilder.GitMercurialResolvedDependencyBuilder.WithCommitId` | src/main/java/com/github/blindpirate/gogradle/vcs/VcsResolvedDependency.java:127-130 | sets the commit id, changes no other field, and returns the same builder |
| `VcsBuilder.GitMercurialResolvedDependencyBuilder.WithCommitTime` | src/main/java/com/github/blindpirate/gogradle/vcs/VcsResolvedDependency.java:132-135 | sets the commit time, changes no other field, and returns the same builder |
| `VcsBuilder.GitMercurialResolvedDependencyBuilder.Build` | src/main/java/com/github/blindpirate/gogradle/vcs/VcsResolvedDependency.java:137-150 | fails exactly when the VCS type is neither Git nor Mercurial. On success the record has the builder's VCS type. Its name, tag, subpackages, first-level flag and package are the declaration's. Its url, commit id and commit time are the values last set on the builder |
| `VcsBuilder.BuildsAgreeOnIdentity` | src/main/java/com/github/blindpirate/gogradle/vcs/VcsResolvedDependency.java:137-150 | two builds from the same VCS type, url and commit id, with declarations that share a name, either both fail or give equal records with equal hashes, even when their commit times, tags or subpackages differ |

## Left out

- `getInstaller` (lines 55-58) looks up a service in a registry that is not part of this model.
- The concrete integer returned by `Objects.hash` is left out. Only the fields the hash reads are modelled.
- `AbstractResolvedDependency`, `MapUtils.asMap`, the Git and Mercurial subclasses, the notation parser and `VcsType` are not part of this model. The assumptions made about them are listed above.
- Reading a lock entry back into a record is not modelled, because the parser is not part of this model. The model proves only that a lock entry determines the record's identity and its subpackages.
- The order of keys in the lock map and the order of the subpackage list are left out. Java's hash set leaves that order unspecified. The model states only membership and multiset equality.
- Java's failure modes are left out. These are the `ClassCastException` at lines 92 and 123, the `NullPointerException` for a missing declaration at line 141, and the `StringIndexOutOfBoundsException` for a commit id shorter than 7 characters. The model turns them into preconditions (`FormatVersion`, `Build`).
- VcsBuilder.GitMercurialResolvedDependencyBuilder.Build: requires a url and a commit id. In Java, a `null` url or commit id would be passed to the variant's constructor, whose behaviour is not part of this model.
- The commit-id format (40 hexadecimal digits) is not enforced, because nothing in the modelled code checks it.
- The initial tag, subpackages, flag and package of a newly constructed variant are modelled as absent, empty, `false` and no package. The base class that sets them is not part of this model, and `Build` overwrites all four.
- Vcs.LockedNotationStable: does not claim that the two subpackage lists are in the same order. Java lists the set in its iteration order, and that order can depend on how the set was built, so equal sets may be listed differently.
- Java's `substring` counts UTF-16 code units, while the model's prefix counts characters. The two agree for hexadecimal commit ids, but the model does not enforce that format.
