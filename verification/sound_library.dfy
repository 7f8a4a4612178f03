/**
 * Sound categories, their folders, and the random choice of one audio file
 * from a category folder (`GetRandomAudioFile`).
 *
 * The directory listing is abstract: for each supported extension, the list
 * of paths the recursive search returned, in search order. The value of
 * `random.Next(n)` is passed in as `pick`.
 */
module SoundLibrary {
  import opened Wrappers

  /** The four sound categories, one sub-folder each under the sounds root. */
  datatype Category = Done | Launch | Loading | Phase

  /** Search patterns, in the order their matches are concatenated. */
  const SupportedExtensions: seq<string> := ["*.wav", "*.flac", "*.ogg", "*.mp3"]

  /** The sounds root, relative to the working directory of the host. */
  const BaseSoundsPath: string := "MonkeyLoader/Mods/StartupSounds/sounds"

  function FolderName(c: Category): (name: string)
  {
    match c
    case Done => "done"
    case Launch => "launch"
    case Loading => "loading"
    case Phase => "phase"
  }

  /** The folder searched for a category's sounds. */
  function CategoryDir(c: Category): (dir: string)
    ensures |dir| > |BaseSoundsPath|
    ensures dir[..|BaseSoundsPath|] == BaseSoundsPath
  {
    BaseSoundsPath + "/" + FolderName(c)
  }

  /** Each category has its own folder. */
  lemma CategoryDirsDistinct(c1: Category, c2: Category)
    requires c1 != c2
    ensures CategoryDir(c1) != CategoryDir(c2)
  {
  }

  /** Exceptions `GetRandomAudioFile` throws. */
  datatype LibraryError =
    | EmptyPath                 // ArgumentException
    | NoAudioFiles(dir: string) // FileNotFoundException

  /**
   * One scan of a folder: the matches of each search pattern of
   * `SupportedExtensions` (same index), and the random index drawn.
   */
  datatype Scan = Scan(perExtension: seq<seq<string>>, pick: nat)

  /** The per-extension match lists joined in order (the `SelectMany`). */
  function Concat(lists: seq<seq<string>>): (joined: seq<string>)
  {
    if lists == [] then [] else lists[0] + Concat(lists[1..])
  }

  /** A scan the environment can produce: one list per pattern, and a random
      index below the number of matches whenever there is at least one. */
  predicate ValidScan(scan: Scan)
  {
    && |scan.perExtension| == |SupportedExtensions|
    && (Concat(scan.perExtension) == [] || scan.pick < |Concat(scan.perExtension)|)
  }

  /** A path is among the joined matches exactly when some pattern matched it. */
  lemma {:induction false} ConcatMembership(lists: seq<seq<string>>, f: string)
    ensures f in Concat(lists) <==> exists i :: 0 <= i < |lists| && f in lists[i]
    decreases |lists|
  {
    if lists != [] {
      ConcatMembership(lists[1..], f);
      assert forall i :: 1 <= i < |lists| ==> lists[i] == lists[1..][i - 1];
      if f in Concat(lists[1..]) {
        var i :| 0 <= i < |lists[1..]| && f in lists[1..][i];
        assert f in lists[i + 1];
      }
    }
  }

  /** The matches are empty exactly when every pattern found nothing. */
  lemma {:induction false} ConcatEmpty(lists: seq<seq<string>>)
    ensures Concat(lists) == [] <==> forall i :: 0 <= i < |lists| ==> lists[i] == []
    decreases |lists|
  {
    if lists != [] {
      ConcatEmpty(lists[1..]);
      assert forall i :: 1 <= i < |lists| ==> lists[i] == lists[1..][i - 1];
    }
  }

  /**
   * Picks a random audio file below `dir`: an empty path is an argument error,
   * no match at all is a file-not-found error, otherwise the result is the
   * `pick`-th path of the joined per-extension matches.
   */
  function GetRandomAudioFile(dir: string, scan: Scan): (r: Result<string, LibraryError>)
    requires ValidScan(scan)
    ensures r == Err(EmptyPath) <==> dir == []
    ensures r == Err(NoAudioFiles(dir)) <==>
              dir != [] && forall i :: 0 <= i < |scan.perExtension| ==> scan.perExtension[i] == []
    ensures r.Ok? <==> dir != [] && Concat(scan.perExtension) != []
    ensures r.Ok? ==> exists i :: 0 <= i < |SupportedExtensions| && r.value in scan.perExtension[i]
  {
    ConcatEmpty(scan.perExtension);
    if dir == [] then Err(EmptyPath)
    else
      var files := Concat(scan.perExtension);
      if |files| == 0 then Err(NoAudioFiles(dir))
      else
        ConcatMembership(scan.perExtension, files[scan.pick]);
        Ok(files[scan.pick])
  }

  /** Every match can be the one chosen: some random index selects it. */
  lemma EveryMatchSelectable(dir: string, lists: seq<seq<string>>, f: string)
    requires dir != [] && |lists| == |SupportedExtensions|
    requires f in Concat(lists)
    ensures exists pick: nat :: ValidScan(Scan(lists, pick)) && GetRandomAudioFile(dir, Scan(lists, pick)) == Ok(f)
  {
    var files := Concat(lists);
    var pick: nat :| pick < |files| && files[pick] == f;
    assert ValidScan(Scan(lists, pick));
    assert GetRandomAudioFile(dir, Scan(lists, pick)) == Ok(f);
  }
}
