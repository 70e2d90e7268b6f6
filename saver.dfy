/**
 * Single-slot persistence of the custom alert sound (class `Saver` in Saver.swift).
 *
 * The filesystem is abstracted to the one directory the saver manages: `None`
 * when it does not exist, otherwise the names of its entries in listing order.
 * What the filesystem does when asked is given by `FsFaults`.
 */
module Saving {
  import opened Common

  /** `Saver.Errors`. */
  datatype SaverError = CantSaveFile | CantClearDirectory | CantCreateDirectory

  /** The error `FileManager.createDirectory` throws. */
  datatype FsError = CreateFailed

  /** The directory: absent, or its entries in the order a listing returns them. */
  type Listing = Option<seq<string>>

  /**
   * How the filesystem answers: whether creating the directory fails, whether
   * copying a file fails, which entries cannot be removed, whether removing the
   * whole directory fails, and whether the directory disappears (another process
   * removes it) between `checkDirectory` and the existence check that follows.
   */
  datatype FsFaults = FsFaults(
    createFails: bool,
    copyFails: bool,
    undeletable: set<string>,
    removeFails: bool,
    removedExternally: bool)

  /** The default directory name when none is given. */
  const DefaultDirectory := ".mcc_app_data"

  /** The listing after removing the entry `x`. */
  function Without(s: seq<string>, x: string): seq<string>
  {
    if s == [] then []
    else if s[0] == x then Without(s[1..], x)
    else [s[0]] + Without(s[1..], x)
  }

  /**
   * The listing `s` after trying to remove each of `names` in turn; the
   * removal of an undeletable entry fails and is ignored.
   */
  function Swept(s: seq<string>, names: seq<string>, undeletable: set<string>): seq<string>
    decreases |names|
  {
    if names == [] then s
    else
      var before := Swept(s, names[..|names| - 1], undeletable);
      var x := names[|names| - 1];
      if x in undeletable then before else Without(before, x)
  }

  /**
   * `clearDirectory()`: a missing or empty directory is left alone; otherwise
   * each listed entry is removed, ignoring the ones whose removal fails.
   */
  function Cleared(l: Listing, undeletable: set<string>): (r: Listing)
    ensures r.Some? == l.Some?
    ensures l.Some? ==> forall y :: y in r.value <==> y in l.value && y in undeletable
  {
    if l.None? || l.value == [] then l
    else SweptMembers(l.value, l.value, undeletable); Some(Swept(l.value, l.value, undeletable))
  }

  /** `clearDirectory(totally: true)`: remove the whole directory, swallowing a failure. */
  function Removed(l: Listing, f: FsFaults): (r: Listing)
    ensures !f.removeFails ==> r.None?
    ensures f.removeFails ==> r == l
  {
    if f.removeFails then l else None
  }

  /** A filesystem step: the directory afterwards and what was thrown. */
  datatype Step<+E> = Step(listing: Listing, outcome: Outcome<E>)

  /** `checkDirectory()`: clear an existing directory, or create a missing one. */
  function Checked(l: Listing, f: FsFaults): (r: Step<FsError>)
    ensures r.outcome.Fail? <==> l.None? && f.createFails
    ensures r.outcome.Pass? ==> r.listing.Some?
    ensures l.Some? ==> r.listing == Cleared(l, f.undeletable)
    ensures l.None? && r.outcome.Pass? ==> r.listing == Some([])
    ensures r.outcome.Fail? ==> r.listing == l
  {
    if l.Some? then Step(Cleared(l, f.undeletable), Pass)
    else if f.createFails then Step(l, Fail(CreateFailed))
    else Step(Some([]), Pass)
  }

  /**
   * `save(url:)`: check the directory (any failure there is reported as
   * `cantClearDirectory`), check again that it exists, then copy the file in
   * under `name`; the copy fails when asked to, or when an entry of that name is
   * still there.
   */
  function Saved(l: Listing, name: string, f: FsFaults): (r: Step<SaverError>)
    ensures r.outcome == Fail(CantClearDirectory) <==> l.None? && f.createFails
    ensures r.outcome.Pass? ==> r.listing.Some? && |r.listing.value| > 0 && r.listing.value[|r.listing.value| - 1] == name
    ensures r.outcome.Pass? ==>
      forall y :: y in r.listing.value <==> y == name || (l.Some? && y in l.value && y in f.undeletable)
    ensures r.outcome.Fail? && r.listing.Some? ==>
      forall y :: y in r.listing.value <==> l.Some? && y in l.value && y in f.undeletable
  {
    var c := Checked(l, f);
    if c.outcome.Fail? then Step(c.listing, Fail(CantClearDirectory))
    else
      var d := if f.removedExternally then None else c.listing;
      if d.None? then Step(d, Fail(CantCreateDirectory))
      else if f.copyFails || name in d.value then Step(d, Fail(CantSaveFile))
      else Step(Some(d.value + [name]), Pass)
  }

  /** `storedURL()`: the last entry of the listing, or nil for a missing or empty directory. */
  function StoredUrlOf(directory: Url, l: Listing): (r: Option<Url>)
    ensures r.None? <==> l.None? || l.value == []
    ensures r.Some? ==> r.value == Appending(directory, l.value[|l.value| - 1])
  {
    match l
    case None => None
    case Some(names) => if names == [] then None else Some(Appending(directory, names[|names| - 1]))
  }

  /** Removing `x` leaves exactly the other entries. */
  lemma {:induction false} WithoutMembers(s: seq<string>, x: string)
    ensures forall y :: y in Without(s, x) <==> y in s && y != x
    decreases |s|
  {
    if s != [] {
      WithoutMembers(s[1..], x);
      assert forall y :: y in s <==> y == s[0] || y in s[1..];
    }
  }

  /** After a removal pass over `names`, an entry remains exactly when it was not named or could not be removed. */
  lemma {:induction false} SweptMembers(s: seq<string>, names: seq<string>, u: set<string>)
    ensures forall y :: y in Swept(s, names, u) <==> y in s && (y !in names || y in u)
    decreases |names|
  {
    if names != [] {
      var init := names[..|names| - 1];
      var x := names[|names| - 1];
      SweptMembers(s, init, u);
      WithoutMembers(Swept(s, init, u), x);
      assert names == init + [x];
      assert forall y :: y in names <==> y in init || y == x;
    }
  }

  /** `clearDirectory()` on a missing or empty directory changes nothing. */
  lemma ClearMissingOrEmptyIsNoop(l: Listing, u: set<string>)
    requires l.None? || l == Some([])
    ensures Cleared(l, u) == l
  {
  }

  /** A listing with no entries at all is the empty listing. */
  lemma EmptyWhenNoMembers(r: seq<string>)
    ensures (forall y :: y !in r) ==> r == []
  {
    if r != [] {
      assert r[0] in r;
    }
  }

  /** With every removal working, clearing leaves an existing directory empty. */
  lemma ClearedEmpties(l: Listing)
    requires l.Some?
    ensures Cleared(l, {}) == Some([])
  {
    EmptyWhenNoMembers(Cleared(l, {}).value);
  }

  /**
   * On an existing directory, `save` never fails in its directory steps: the
   * directory is first cleared, and the copy, if any, lands in the cleared
   * directory.
   */
  lemma SaveClearsFirst(l: Listing, name: string, f: FsFaults)
    requires l.Some? && !f.removedExternally
    ensures var s := Saved(l, name, f); var c := Cleared(l, f.undeletable).value;
      s.outcome != Fail(CantClearDirectory) && s.outcome != Fail(CantCreateDirectory) &&
      s.listing == (if s.outcome.Pass? then Some(c + [name]) else Some(c))
  {
  }

  /**
   * A successful save with every removal working leaves exactly the copied
   * file, and `storedURL` finds it under the source's file name.
   */
  lemma SaveThenStored(directory: Url, l: Listing, url: Url, f: FsFaults)
    requires f.undeletable == {}
    requires Saved(l, LastPathComponent(url), f).outcome.Pass?
    ensures var s := Saved(l, LastPathComponent(url), f);
      s.listing == Some([LastPathComponent(url)]) &&
      StoredUrlOf(directory, s.listing) == Some(Appending(directory, LastPathComponent(url))) &&
      LastPathComponent(StoredUrlOf(directory, s.listing).value) == LastPathComponent(url)
  {
    if l.Some? {
      ClearedEmpties(l);
    }
    assert [] + [LastPathComponent(url)] == [LastPathComponent(url)];
  }

  /** A missing directory that cannot be created is reported as `cantClearDirectory`. */
  lemma CreateFailureReportedAsClear(l: Listing, name: string, f: FsFaults)
    requires l.None? && f.createFails
    ensures Saved(l, name, f) == Step(None, Fail(CantClearDirectory))
  {
  }

  /** `cantCreateDirectory` exactly when the check passed but the directory is gone afterwards. */
  lemma CantCreateOnlyAfterCheck(l: Listing, name: string, f: FsFaults)
    ensures Saved(l, name, f).outcome == Fail(CantCreateDirectory) <==>
      Checked(l, f).outcome.Pass? && f.removedExternally
  {
  }

  /** A failed copy leaves the directory existing and already cleared; empty when every removal worked. */
  lemma CopyFailureLeavesCleared(l: Listing, name: string, f: FsFaults)
    requires Saved(l, name, f).outcome == Fail(CantSaveFile)
    ensures Saved(l, name, f).listing == Checked(l, f).listing
    ensures f.undeletable == {} ==> Saved(l, name, f).listing == Some([])
  {
    if l.Some? && f.undeletable == {} {
      ClearedEmpties(l);
    }
  }

  /** `resetStore()` never throws; when the removal works, `storedURL` then returns nil. */
  lemma ResetThenNothingStored(directory: Url, l: Listing, f: FsFaults)
    requires !f.removeFails
    ensures StoredUrlOf(directory, Removed(l, f)).None?
  {
  }

  /** The saver and the directory it manages. `faults` is the filesystem's behaviour. */
  class Saver {
    const directory: Url
    var listing: Listing
    var faults: FsFaults

    /** `init(directory:)`: the directory is `home/<name>`, `.mcc_app_data` by default. */
    constructor(home: seq<string>, name: Option<string>, disk: Listing, faults: FsFaults)
      ensures directory == Url(home + [name.GetOr(DefaultDirectory)])
      ensures listing == disk && this.faults == faults
    {
      directory := Url(home + [name.GetOr(DefaultDirectory)]);
      listing := disk;
      this.faults := faults;
    }

    method Save(url: Url) returns (r: Outcome<SaverError>)
      modifies this`listing
      ensures Step(listing, r) == Saved(old(listing), LastPathComponent(url), faults)
    {
      var checked := CheckDirectory();
      if checked.Fail? {
        return Fail(CantClearDirectory);
      }
      if faults.removedExternally {
        listing := None;
      }
      var isDirectoryExists := listing.Some?;
      if !isDirectoryExists {
        return Fail(CantCreateDirectory);
      }
      var name := LastPathComponent(url);
      if faults.copyFails || name in listing.value {
        return Fail(CantSaveFile);
      }
      listing := Some(listing.value + [name]);
      r := Pass;
    }

    method ResetStore()
      modifies this`listing
      ensures listing == Removed(old(listing), faults)
    {
      ClearDirectory(true);
    }

    function StoredUrl(): (r: Option<Url>)
      reads this
      ensures r.None? <==> listing.None? || listing.value == []
      ensures r.Some? ==> LastPathComponent(r.value) == listing.value[|listing.value| - 1]
    {
      StoredUrlOf(directory, listing)
    }

    method CheckDirectory() returns (r: Outcome<FsError>)
      modifies this`listing
      ensures Step(listing, r) == Checked(old(listing), faults)
    {
      var isDirectoryExists := listing.Some?;
      if isDirectoryExists {
        ClearDirectory(false);
        r := Pass;
      } else if faults.createFails {
        r := Fail(CreateFailed);
      } else {
        listing := Some([]);
        r := Pass;
      }
    }

    /** Remove the directory (`totally`) or each of its entries, ignoring failed removals. */
    method ClearDirectory(totally: bool)
      modifies this`listing
      ensures listing == if totally then Removed(old(listing), faults) else Cleared(old(listing), faults.undeletable)
    {
      if totally {
        if !faults.removeFails {
          listing := None;
        }
        return;
      }
      if listing.None? || listing.value == [] {
        return;
      }
      RemoveEach(listing.value);
    }

    /** `files.forEach { try? removeItem(...) }`: try to remove each listed entry in turn. */
    method RemoveEach(files: seq<string>)
      requires listing == Some(files)
      modifies this`listing
      ensures listing == Some(Swept(files, files, faults.undeletable))
    {
      var i := 0;
      while i < |files|
        invariant 0 <= i <= |files|
        invariant listing == Some(Swept(files, files[..i], faults.undeletable))
      {
        assert files[..i + 1][..i] == files[..i];
        if files[i] !in faults.undeletable {
          listing := Some(Without(listing.value, files[i]));
        }
        i := i + 1;
      }
      assert files[..i] == files;
    }
  }
}
