/**
 * The retention sweep over the reports directory: every `.pdf` whose modification time is
 * more than seven days before `now` is unlinked; other entries are never touched.
 */
module Retention {
  import opened Text

  /** Seven days in milliseconds. */
  const RetentionMs: int := 7 * 24 * 60 * 60 * 1000

  /** The reports directory: whether it is present, and each entry's name with its mtime in ms. */
  class ReportsDir {
    var present: bool
    var files: map<string, int>

    /** A directory that is not present holds no entries. */
    ghost predicate Valid()
      reads this
    {
      !present ==> files == map[]
    }

    constructor (present: bool, files: map<string, int>)
      requires present || files == map[]
      ensures Valid() && this.present == present && this.files == files
    {
      this.present := present;
      this.files := files;
    }
  }

  /** `file.endsWith('.pdf')`: the only entries the sweep considers. */
  predicate IsReport(name: string) {
    EndsWith(name, ".pdf")
  }

  /** A report older than the cutoff `now - 7 days`; one exactly at the cutoff is kept. */
  predicate Expired(name: string, mtime: int, now: int) {
    IsReport(name) && mtime < now - RetentionMs
  }

  /** The directory after a sweep that met no error: the entries that are not expired reports. */
  function Retained(files: map<string, int>, now: int): (kept: map<string, int>)
    ensures kept.Keys <= files.Keys
    ensures forall n :: n in kept ==> kept[n] == files[n] && !Expired(n, files[n], now)
    ensures forall n :: n in files && !Expired(n, files[n], now) ==> n in kept
  {
    map n | n in files && !Expired(n, files[n], now) :: files[n]
  }

  /** The names a sweep that met no error removes. */
  function ExpiredNames(files: map<string, int>, now: int): set<string> {
    set n | n in files && Expired(n, files[n], now)
  }

  /** A second sweep at the same instant finds nothing more to delete. */
  lemma RetainedIdempotent(files: map<string, int>, now: int)
    ensures Retained(Retained(files, now), now) == Retained(files, now)
    ensures ExpiredNames(Retained(files, now), now) == {}
  {
  }

  /** A later sweep keeps a subset of what an earlier sweep kept. */
  lemma RetainedMonotone(files: map<string, int>, now: int, later: int)
    requires now <= later
    ensures Retained(Retained(files, now), later) == Retained(files, later)
  {
  }

  /** The number of deletions equals the number of entries that disappear. */
  lemma {:induction false} DeletedCountMatches(files: map<string, int>, now: int)
    ensures |ExpiredNames(files, now)| == |files.Keys| - |Retained(files, now).Keys|
  {
    var gone := ExpiredNames(files, now);
    var kept := Retained(files, now).Keys;
    assert files.Keys == gone + kept;
    assert gone !! kept;
  }

  /** A sweep that removed exactly the expired reports leaves what `Retained` keeps. */
  lemma SweepRetains(start: map<string, int>, files: map<string, int>, removed: set<string>, now: int)
    requires files.Keys == start.Keys - removed
    requires forall n :: n in files ==> files[n] == start[n]
    requires forall n :: n in removed ==> n in start && Expired(n, start[n], now)
    requires forall n :: n in start && Expired(n, start[n], now) ==> n in removed
    ensures files == Retained(start, now)
  {
    var kept := Retained(start, now);
    assert files.Keys == kept.Keys;
  }

  /** What a sweep that ended, normally or at a faulty report, leaves behind. */
  lemma SweepOutcome(start: map<string, int>, files: map<string, int>, removed: set<string>, now: int,
                     faulty: set<string>, completed: bool, culprit: string)
    requires removed <= start.Keys && files.Keys == start.Keys - removed
    requires forall n :: n in files ==> files[n] == start[n]
    requires forall n :: n in removed ==> Expired(n, start[n], now) && n !in faulty
    requires completed ==> forall n :: n in start && Expired(n, start[n], now) ==> n in removed
    requires completed ==> forall n :: n in start && IsReport(n) ==> n !in faulty
    requires !completed ==> culprit in start && IsReport(culprit) && culprit in faulty
    ensures files.Keys <= start.Keys && |start.Keys - files.Keys| == |removed|
    ensures forall n :: n in start && n !in files ==> Expired(n, start[n], now)
    ensures forall n :: n in start && n in faulty ==> n in files
    ensures completed ==> files == Retained(start, now)
    ensures completed <==> forall n :: n in start && IsReport(n) ==> n !in faulty
  {
    assert start.Keys - files.Keys == removed;
    if completed {
      SweepRetains(start, files, removed, now);
    }
  }

  /**
   * The loop of `cleanupOldReports()` over the listed entries `start`. The listing comes in an
   * unspecified order, so each step picks any entry not yet visited. `faulty` holds the
   * entries whose visit throws: `statSync` throws on it, or it is expired and `unlinkSync`
   * throws on it (a recent report is never unlinked, so an unlink that would fail there is
   * not a fault). The first such report reached ends the whole sweep (the catch surrounds
   * the loop), and `completed` is false.
   */
  method Sweep(start: map<string, int>, now: int, faulty: set<string>)
    returns (files: map<string, int>, deletedCount: nat, completed: bool)
    ensures files.Keys <= start.Keys
    ensures forall n :: n in files ==> files[n] == start[n]
    ensures forall n :: n in start && n !in files ==> Expired(n, start[n], now)
    ensures deletedCount == |start.Keys - files.Keys|
    ensures completed ==> files == Retained(start, now)
    ensures completed <==> forall n :: n in start && IsReport(n) ==> n !in faulty
    ensures forall n :: n in start && n in faulty ==> n in files
  {
    deletedCount, completed := 0, true;
    ghost var removed: set<string> := {};
    ghost var culprit := "";
    files := start;
    var pending := files.Keys;
    while pending != {}
      invariant pending <= start.Keys && removed <= start.Keys && pending !! removed
      invariant files.Keys == start.Keys - removed
      invariant forall n :: n in files ==> files[n] == start[n]
      invariant forall n :: n in removed ==> Expired(n, start[n], now)
      invariant forall n :: n in start && n !in pending && Expired(n, start[n], now) ==> n in removed
      invariant forall n :: n in start && n !in pending && IsReport(n) ==> n !in faulty
      invariant deletedCount == |removed|
      invariant completed
      decreases pending
    {
      var name :| name in pending;
      pending := pending - {name};
      if IsReport(name) {
        if name in faulty {
          completed := false;
          culprit := name;
          break;
        }
        if files[name] < now - RetentionMs {
          files := files - {name};
          removed := removed + {name};
          deletedCount := deletedCount + 1;
        }
      }
    }
    SweepOutcome(start, files, removed, now, faulty, completed, culprit);
  }

  /**
   * `cleanupOldReports()`. A missing directory is left alone. `unreadable` says that
   * `readdirSync` throws on the existing path (a plain file, or no read permission): the
   * catch then ends the run before any entry is visited. Otherwise the listed entries are
   * swept. `deletedCount` is the count logged.
   */
  method CleanupOldReports(dir: ReportsDir, now: int, faulty: set<string>, unreadable: bool)
    returns (deletedCount: nat, completed: bool)
    requires dir.Valid()
    modifies dir
    ensures dir.Valid() && dir.present == old(dir.present)
    ensures !old(dir.present) ==> dir.files == old(dir.files) && deletedCount == 0 && completed
    ensures old(dir.present) && unreadable ==> dir.files == old(dir.files) && deletedCount == 0 && !completed
    ensures dir.files.Keys <= old(dir.files).Keys
    ensures forall n :: n in dir.files ==> dir.files[n] == old(dir.files)[n]
    ensures forall n :: n in old(dir.files) && n !in dir.files ==> Expired(n, old(dir.files)[n], now)
    ensures deletedCount == |old(dir.files).Keys - dir.files.Keys|
    ensures completed ==> dir.files == Retained(old(dir.files), now)
    ensures old(dir.present) && !unreadable ==>
      (completed <==> forall n :: n in old(dir.files) && IsReport(n) ==> n !in faulty)
    ensures forall n :: n in old(dir.files) && n in faulty ==> n in dir.files
  {
    if !dir.present || unreadable {
      assert old(dir.files).Keys - dir.files.Keys == {};
      return 0, !dir.present;
    }
    var files;
    files, deletedCount, completed := Sweep(dir.files, now, faulty);
    dir.files := files;
  }
}
