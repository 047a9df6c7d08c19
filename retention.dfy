/** Age-based clean-up of an artifact directory, shared by the screenshot and
    report utilities: every regular file (optionally only those with a given
    name suffix) last modified before a cutoff is deleted, and the deletions
    that succeed are counted. The directory is a value: its listing in the
    order `File.listFiles` returns it, and for each file whether `delete`
    succeeds. */
module Retention {
  import opened JavaText

  /** One entry of a directory listing. */
  datatype FileEntry = FileEntry(name: string, isFile: bool, lastModified: int, deletable: bool)

  /** A directory that does not exist, one whose `listFiles` returns null, or
      one that lists its entries. */
  datatype Directory = Missing | Unlistable | Listing(entries: seq<FileEntry>)

  /** Which entries are candidates: all regular files, or only the regular
      files whose name ends with a suffix. */
  datatype Rule = AllFiles | NameEndsWith(suffix: string)

  // ---------------------------------------------------------------------------
  // The cutoff, in Java `long` arithmetic
  // ---------------------------------------------------------------------------

  const MillisPerDay: int := 24 * 60 * 60 * 1000
  const MinLong: int := -0x8000_0000_0000_0000
  const MaxLong: int := 0x7fff_ffff_ffff_ffff

  /** Two's-complement wrap-around into the `long` range. */
  function WrapLong(x: int): (r: int)
    ensures MinLong <= r <= MaxLong
    ensures MinLong <= x <= MaxLong ==> r == x
  {
    (x - MinLong) % 0x1_0000_0000_0000_0000 + MinLong
  }

  /** `System.currentTimeMillis() - (daysToKeep * 24L * 60L * 60L * 1000L)`:
      the `int` is widened before the first multiplication, so both the
      product and the difference are `long` operations. */
  function Cutoff(now: int, daysToKeep: int): (cutoff: int)
    ensures MinLong <= cutoff <= MaxLong
  {
    WrapLong(now - WrapLong(daysToKeep * MillisPerDay))
  }

  /** For any `int` day count and any clock reading up to 2^62 ms (about 146
      million years after 1970) nothing wraps: the cutoff lies exactly
      `daysToKeep` days before now. */
  lemma CutoffIsExact(now: int, daysToKeep: int)
    requires 0 <= now <= 0x4000_0000_0000_0000 && InInt32(daysToKeep)
    ensures Cutoff(now, daysToKeep) == now - daysToKeep * MillisPerDay
  {
    assert MinInt * MillisPerDay <= daysToKeep * MillisPerDay <= MaxInt * MillisPerDay;
  }

  // ---------------------------------------------------------------------------
  // The clean-up, specified on the listing
  // ---------------------------------------------------------------------------

  /** `isFile`, the name filter and `lastModified < cutoff`. */
  predicate Selected(rule: Rule, e: FileEntry, cutoff: int) {
    && e.isFile
    && (match rule case AllFiles => true case NameEndsWith(suffix) => EndsWith(e.name, suffix))
    && e.lastModified < cutoff
  }

  /** The entry is gone after the clean-up. */
  predicate Removed(rule: Rule, e: FileEntry, cutoff: int) {
    Selected(rule, e, cutoff) && e.deletable
  }

  /** The listing after the clean-up, in the original order. */
  function Kept(entries: seq<FileEntry>, rule: Rule, cutoff: int): (r: seq<FileEntry>)
    ensures |r| <= |entries|
  {
    if entries == [] then []
    else
      var last := entries[|entries| - 1];
      Kept(entries[..|entries| - 1], rule, cutoff) + (if Removed(rule, last, cutoff) then [] else [last])
  }

  /** The number of successful deletions. */
  function DeletedCount(entries: seq<FileEntry>, rule: Rule, cutoff: int): nat {
    if entries == [] then 0
    else
      DeletedCount(entries[..|entries| - 1], rule, cutoff)
      + (if Removed(rule, entries[|entries| - 1], cutoff) then 1 else 0)
  }

  /** One pass over the listing, deleting each selected file in turn. A
      missing or unlistable directory is left as it is. */
  method Cleanup(dir: Directory, rule: Rule, cutoff: int) returns (deletedCount: nat, after: Directory)
    ensures !dir.Listing? ==> deletedCount == 0 && after == dir
    ensures dir.Listing? ==> after == Listing(Kept(dir.entries, rule, cutoff))
    ensures dir.Listing? ==> deletedCount == DeletedCount(dir.entries, rule, cutoff)
  {
    if !dir.Listing? {
      return 0, dir;
    }
    var entries := dir.entries;
    var kept: seq<FileEntry> := [];
    deletedCount := 0;
    var i := 0;
    while i < |entries|
      invariant 0 <= i <= |entries|
      invariant kept == Kept(entries[..i], rule, cutoff)
      invariant deletedCount == DeletedCount(entries[..i], rule, cutoff)
    {
      var file := entries[i];
      assert entries[..i + 1][..i] == entries[..i];
      if Selected(rule, file, cutoff) {
        if file.deletable {
          deletedCount := deletedCount + 1;
        } else {
          kept := kept + [file];
        }
      } else {
        kept := kept + [file];
      }
      i := i + 1;
    }
    assert entries[..i] == entries;
    after := Listing(kept);
  }

  // ---------------------------------------------------------------------------
  // Properties of the clean-up
  // ---------------------------------------------------------------------------

  /** Every entry is either kept or counted as deleted, never both. */
  lemma {:induction false} KeptAndDeletedPartition(entries: seq<FileEntry>, rule: Rule, cutoff: int)
    ensures |Kept(entries, rule, cutoff)| + DeletedCount(entries, rule, cutoff) == |entries|
    decreases |entries|
  {
    if entries != [] {
      KeptAndDeletedPartition(entries[..|entries| - 1], rule, cutoff);
    }
  }

  /** What survives is exactly what was not selected or could not be deleted:
      nothing new, nothing recent, no directory and no filtered-out name is
      lost. */
  lemma {:induction false} KeptExactly(entries: seq<FileEntry>, rule: Rule, cutoff: int)
    ensures forall e :: e in Kept(entries, rule, cutoff) ==> e in entries && !Removed(rule, e, cutoff)
    ensures forall e :: e in entries && !Removed(rule, e, cutoff) ==> e in Kept(entries, rule, cutoff)
    decreases |entries|
  {
    if entries != [] {
      var init := entries[..|entries| - 1];
      KeptExactly(init, rule, cutoff);
      assert entries == init + [entries[|entries| - 1]];
    }
  }

  /** Running the clean-up again with the same cutoff deletes nothing more. */
  lemma {:induction false} CleanupIdempotent(entries: seq<FileEntry>, rule: Rule, cutoff: int)
    ensures Kept(Kept(entries, rule, cutoff), rule, cutoff) == Kept(entries, rule, cutoff)
    ensures DeletedCount(Kept(entries, rule, cutoff), rule, cutoff) == 0
    decreases |entries|
  {
    if entries != [] {
      var init := entries[..|entries| - 1];
      var last := entries[|entries| - 1];
      CleanupIdempotent(init, rule, cutoff);
      var k := Kept(init, rule, cutoff);
      if !Removed(rule, last, cutoff) {
        var k' := k + [last];
        assert Kept(entries, rule, cutoff) == k';
        assert k'[..|k'| - 1] == k && k'[|k'| - 1] == last;
        assert Kept(k', rule, cutoff) == Kept(k, rule, cutoff) + [last];
        assert DeletedCount(k', rule, cutoff) == DeletedCount(k, rule, cutoff);
      } else {
        assert Kept(entries, rule, cutoff) == k;
      }
    }
  }

  /** A later cutoff (fewer days kept) deletes at least as many files. */
  lemma {:induction false} LaterCutoffDeletesMore(entries: seq<FileEntry>, rule: Rule, cutoff: int, later: int)
    requires cutoff <= later
    ensures DeletedCount(entries, rule, cutoff) <= DeletedCount(entries, rule, later)
    decreases |entries|
  {
    if entries != [] {
      LaterCutoffDeletesMore(entries[..|entries| - 1], rule, cutoff, later);
    }
  }
}
