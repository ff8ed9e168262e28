/**
 * The builder that assembles a resolved Git or Mercurial dependency from the
 * declaration it was resolved from and the results of fetching the commit.
 */
module VcsBuilder {
  import opened Wrappers
  import opened Vcs

  /** Why `Build` refused to produce a record. */
  datatype BuildError = UnsupportedVcsType(vcsType: VcsType)

  class GitMercurialResolvedDependencyBuilder {
    const vcsType: VcsType
    var notationDependency: Option<NotationDependency>
    var url: Option<string>
    var commitId: Option<string>
    var commitTime: Long

    /** A builder for the given VCS type with nothing else supplied yet. */
    constructor (vcsType: VcsType)
      ensures this.vcsType == vcsType
      ensures notationDependency == None && url == None && commitId == None && commitTime == 0
    {
      this.vcsType := vcsType;
      notationDependency := None;
      url := None;
      commitId := None;
      commitTime := 0;
    }

    method WithUrl(repoUrl: string) returns (self: GitMercurialResolvedDependencyBuilder)
      modifies this`url
      ensures url == Some(repoUrl) && self == this
    {
      url := Some(repoUrl);
      self := this;
    }

    method WithNotationDependency(notation: NotationDependency) returns (self: GitMercurialResolvedDependencyBuilder)
      modifies this`notationDependency
      ensures notationDependency == Some(notation) && self == this
    {
      notationDependency := Some(notation);
      self := this;
    }

    method WithCommitId(id: string) returns (self: GitMercurialResolvedDependencyBuilder)
      modifies this`commitId
      ensures commitId == Some(id) && self == this
    {
      commitId := Some(id);
      self := this;
    }

    method WithCommitTime(time: Long) returns (self: GitMercurialResolvedDependencyBuilder)
      modifies this`commitTime
      ensures commitTime == time && self == this
    {
      commitTime := time;
      self := this;
    }

    /**
     * Fails for any VCS type but Git and Mercurial. Otherwise the record's
     * VCS type is the builder's; name, tag, subpackages, first-level flag and
     * package come from the declaration; url, commit id and commit time from
     * the values last given to the setters.
     */
    method Build() returns (r: Result<VcsResolvedDependency, BuildError>)
      requires notationDependency.Some? && url.Some? && commitId.Some?
      ensures r.Failure? <==> vcsType != Git && vcsType != Mercurial
      ensures r.Failure? ==> r.error == UnsupportedVcsType(vcsType)
      ensures r.Success? ==>
        var d, n := r.value, notationDependency.value;
        d.vcsType == vcsType &&
        d.name == n.name && d.tag == n.tag && d.subpackages == n.subpackages &&
        d.firstLevel == n.firstLevel && d.pkg == n.pkg &&
        d.url == url.value && d.version == commitId.value && d.commitTime == commitTime
    {
      if vcsType != Git && vcsType != Mercurial {
        return Failure(UnsupportedVcsType(vcsType));
      }
      var n := notationDependency.value;
      var ret: VcsResolvedDependency;
      if vcsType == Git {
        ret := NewVariant(Git, n.name, url.value, commitId.value, commitTime);
      } else {
        ret := NewVariant(Mercurial, n.name, url.value, commitId.value, commitTime);
      }
      ret := ret.(tag := n.tag);
      ret := ret.(subpackages := n.subpackages);
      ret := ret.(firstLevel := n.firstLevel);
      ret := ret.(pkg := n.pkg);
      return Success(ret);
    }
  }

  /**
   * Two builds from the same fetch results and declarations that agree on the
   * name either both fail or give equal records with equal hashes, however
   * the declarations differ in tag, subpackages, first-level flag or package.
   */
  method BuildsAgreeOnIdentity(vcsType: VcsType, url: string, commitId: string,
                               time1: Long, time2: Long, n1: NotationDependency, n2: NotationDependency,
                               combine: (string, string, string, VcsType) -> Int32)
    returns (r1: Result<VcsResolvedDependency, BuildError>, r2: Result<VcsResolvedDependency, BuildError>)
    requires n1.name == n2.name
    ensures r1.Success? <==> r2.Success?
    ensures r1.Success? ==> Equals(r1.value, r2.value) &&
                            HashCode(r1.value, combine) == HashCode(r2.value, combine)
  {
    var b1 := new GitMercurialResolvedDependencyBuilder(vcsType);
    var _ := b1.WithUrl(url);
    var _ := b1.WithNotationDependency(n1);
    var _ := b1.WithCommitId(commitId);
    var _ := b1.WithCommitTime(time1);
    r1 := b1.Build();
    var b2 := new GitMercurialResolvedDependencyBuilder(vcsType);
    var _ := b2.WithCommitTime(time2);
    var _ := b2.WithCommitId(commitId);
    var _ := b2.WithNotationDependency(n2);
    var _ := b2.WithUrl(url);
    r2 := b2.Build();
  }
}
