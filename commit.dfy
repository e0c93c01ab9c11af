/** The external `Commit` record and its projection from a library commit. */
module Commits {
  import opened RustInts
  import opened StrLines

  /** Milliseconds since the Unix epoch, the library's `MillisSinceEpoch(i64)`. */
  datatype MillisSinceEpoch = MillisSinceEpoch(millis: i64)

  /** A point in time with the author's timezone offset in minutes. */
  datatype Timestamp = Timestamp(timestamp: MillisSinceEpoch, tzOffset: int)

  datatype Signature = Signature(name: string, email: string, timestamp: Timestamp)

  /**
   * What the projection reads of a library commit. The ids are given as the text their
   * `to_string` renders.
   */
  datatype LibCommit = LibCommit(
    changeId: string,
    commitId: string,
    description: string,
    author: Signature)

  /** The record handed to the caller, field for field. */
  datatype Commit = Commit(
    changeId: string,
    changeIdShortLen: u8,
    commitId: string,
    commitIdShortLen: u8,
    messageFirstLine: string,
    authorName: string,
    authorEmail: string,
    timestamp: i64)

  /**
   * `commit_to_erl_commit`. `changePrefixLen` and `commitPrefixLen` are the shortest unique
   * prefix lengths that the repository's indexes report for this commit's change id and
   * commit id.
   */
  function CommitToErlCommit(commit: LibCommit, changePrefixLen: usize, commitPrefixLen: usize): (r: Commit)
    ensures r.changeId == commit.changeId && r.commitId == commit.commitId
    ensures r.authorName == commit.author.name && r.authorEmail == commit.author.email
    ensures r.timestamp == commit.author.timestamp.timestamp.millis
    ensures r.changeIdShortLen as int == if changePrefixLen <= 255 then changePrefixLen as int else 0
    ensures r.commitIdShortLen as int == if commitPrefixLen <= 255 then commitPrefixLen as int else 0
    ensures r.messageFirstLine <= commit.description && '\n' !in r.messageFirstLine
    ensures commit.description == "" ==> r.messageFirstLine == ""
  {
    Commit(
      commit.changeId,
      NarrowToU8(changePrefixLen),
      commit.commitId,
      NarrowToU8(commitPrefixLen),
      FirstLine(commit.description),
      commit.author.name,
      commit.author.email,
      commit.author.timestamp.timestamp.millis)
  }

  /** A nonzero stored prefix length is the library's length, for both ids. */
  lemma NonzeroShortLenIsExact(commit: LibCommit, changePrefixLen: usize, commitPrefixLen: usize)
    ensures var r := CommitToErlCommit(commit, changePrefixLen, commitPrefixLen);
            (r.changeIdShortLen != 0 ==> r.changeIdShortLen as int == changePrefixLen as int) &&
            (r.commitIdShortLen != 0 ==> r.commitIdShortLen as int == commitPrefixLen as int)
  {
  }

  /**
   * Each stored length depends only on its own library length: changing the other id's
   * length, or any other part of the commit, leaves it as it is.
   */
  lemma ShortLensIndependent(c1: LibCommit, change1: usize, commit1: usize,
                             c2: LibCommit, change2: usize, commit2: usize)
    ensures change1 == change2 ==>
              CommitToErlCommit(c1, change1, commit1).changeIdShortLen
              == CommitToErlCommit(c2, change2, commit2).changeIdShortLen
    ensures commit1 == commit2 ==>
              CommitToErlCommit(c1, change1, commit1).commitIdShortLen
              == CommitToErlCommit(c2, change2, commit2).commitIdShortLen
  {
  }

  /** A description without `\n` is shown whole. */
  lemma SingleLineDescriptionShownWhole(commit: LibCommit, changePrefixLen: usize, commitPrefixLen: usize)
    requires '\n' !in commit.description
    ensures CommitToErlCommit(commit, changePrefixLen, commitPrefixLen).messageFirstLine
            == commit.description
  {
    FirstLineWithoutNewline(commit.description);
  }

  /**
   * For a description `l + "\n" + rest` whose first line `l` has no `\n`, the shown line is
   * `l` with one trailing `\r` removed.
   */
  lemma MultiLineDescriptionShowsFirst(commit: LibCommit, l: string, rest: string,
                                       changePrefixLen: usize, commitPrefixLen: usize)
    requires commit.description == l + "\n" + rest && '\n' !in l
    ensures CommitToErlCommit(commit, changePrefixLen, commitPrefixLen).messageFirstLine
            == if |l| > 0 && l[|l| - 1] == '\r' then l[..|l| - 1] else l
  {
    FirstLineOfSplit(l, rest);
  }
}
