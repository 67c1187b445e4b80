/** How a dropped folder is read (`processDirectory` and its `processEntry` in
    src/features/bot/hooks/useFolderUpload.ts): every file at any depth is looked at in
    traversal order; the last `.txt` file is the manuscript, and image files are collected.

    A file system entry is a value here: a file with its name and MIME type, or a directory
    with its entries in the order the directory reader returns them. */
module FolderUpload {
  import opened Common

  datatype FileInfo = FileInfo(name: string, mimeType: string)

  datatype FsEntry =
    | FileEntry(file: FileInfo)
    | DirectoryEntry(name: string, entries: seq<FsEntry>)

  /** A folder as the bot store lists it. */
  datatype UploadedFolder = UploadedFolder(name: string, manuscriptFile: Option<FileInfo>, imageFiles: seq<FileInfo>)

  /** The flattening of a sequence of sequences, in order. */
  function Concat<T>(ss: seq<seq<T>>): (r: seq<T>)
    decreases |ss|
  {
    if ss == [] then [] else Concat(AllButLast(ss)) + Last(ss)
  }

  /** Flattening one more sequence appends it. */
  lemma ConcatStep<T>(ss: seq<seq<T>>, k: nat)
    requires k < |ss|
    ensures Concat(ss[..k + 1]) == Concat(ss[..k]) + ss[k]
  {
    PrefixStep(ss, k);
  }

  /** The files under an entry in the order `processEntry` reaches them: depth first, each
      directory's entries in order. */
  function Files(e: FsEntry): seq<FileInfo>
    decreases e
  {
    match e
    case FileEntry(f) => [f]
    case DirectoryEntry(_, entries) =>
      Concat(seq(|entries|, k requires 0 <= k < |entries| => Files(entries[k])))
  }

  /** ASCII lower case: the case folding of the `i` flag on the ASCII letters of the pattern
      (a character at or above U+0080 never folds onto an ASCII letter there). */
  function LowerAscii(s: string): (r: string)
    ensures |r| == |s|
    ensures forall k :: 0 <= k < |r| ==> !('A' <= r[k] <= 'Z')
    ensures forall k :: 0 <= k < |r| ==> (r[k] == s[k] <==> !('A' <= s[k] <= 'Z'))
  {
    seq(|s|, k requires 0 <= k < |s| => if 'A' <= s[k] <= 'Z' then (s[k] - 'A' + 'a') as char else s[k])
  }

  /** `/\.(jpg|jpeg|png|gif|webp)$/i`. */
  predicate HasImageExtension(name: string) {
    var n := LowerAscii(name);
    EndsWith(n, ".jpg") || EndsWith(n, ".jpeg") || EndsWith(n, ".png") || EndsWith(n, ".gif") || EndsWith(n, ".webp")
  }

  predicate IsManuscript(f: FileInfo) {
    EndsWith(f.name, ".txt")
  }

  /** Checked only for a file that is not a manuscript. */
  predicate IsImage(f: FileInfo) {
    StartsWith(f.mimeType, "image/") || HasImageExtension(f.name)
  }

  /** The folder after one file is looked at. */
  function Absorb(folder: UploadedFolder, f: FileInfo): (r: UploadedFolder)
    ensures r.name == folder.name
    ensures IsManuscript(f) ==> r == folder.(manuscriptFile := Some(f))
    ensures !IsManuscript(f) && IsImage(f) ==> r == folder.(imageFiles := folder.imageFiles + [f])
    ensures !IsManuscript(f) && !IsImage(f) ==> r == folder
  {
    if IsManuscript(f) then folder.(manuscriptFile := Some(f))
    else if IsImage(f) then folder.(imageFiles := folder.imageFiles + [f])
    else folder
  }

  /** The folder after several files are looked at, in order. */
  function AbsorbAll(folder: UploadedFolder, files: seq<FileInfo>): UploadedFolder
    decreases |files|
  {
    if files == [] then folder else Absorb(AbsorbAll(folder, AllButLast(files)), Last(files))
  }

  /** The images among `files`: the files that are not manuscripts and are images, in order. */
  function Images(files: seq<FileInfo>): (r: seq<FileInfo>)
    ensures forall f :: f in r <==> f in files && !IsManuscript(f) && IsImage(f)
    decreases |files|
  {
    if files == [] then []
    else
      assert files == AllButLast(files) + [Last(files)];
      var f := Last(files);
      Images(AllButLast(files)) + (if !IsManuscript(f) && IsImage(f) then [f] else [])
  }

  /** The last manuscript among `files`, if there is one. */
  function LastManuscript(files: seq<FileInfo>): (r: Option<FileInfo>)
    ensures r.Some? ==> r.value in files && IsManuscript(r.value)
    ensures r.None? <==> forall f :: f in files ==> !IsManuscript(f)
    decreases |files|
  {
    if files == [] then None
    else
      assert files == AllButLast(files) + [Last(files)];
      if IsManuscript(Last(files)) then Some(Last(files)) else LastManuscript(AllButLast(files))
  }

  /** Looking at files in order appends their images and makes the last `.txt` file the
      manuscript; a `.txt` file never counts as an image. */
  lemma {:induction false} AbsorbAllCollects(folder: UploadedFolder, files: seq<FileInfo>)
    ensures var r := AbsorbAll(folder, files);
            && r.name == folder.name
            && r.imageFiles == folder.imageFiles + Images(files)
            && r.manuscriptFile == (if LastManuscript(files).Some? then LastManuscript(files) else folder.manuscriptFile)
    decreases |files|
  {
    if files != [] {
      AbsorbAllCollects(folder, AllButLast(files));
    }
  }

  lemma {:induction false} AbsorbAllAppend(folder: UploadedFolder, a: seq<FileInfo>, b: seq<FileInfo>)
    ensures AbsorbAll(folder, a + b) == AbsorbAll(AbsorbAll(folder, a), b)
    decreases |b|
  {
    if b == [] {
      AppendEmpty(a);
    } else {
      InitAppend(a, b);
      AbsorbAllAppend(folder, a, AllButLast(b));
    }
  }

  /** The folder enters the list only when it found a manuscript or an image. */
  predicate Keeps(folder: UploadedFolder) {
    folder.manuscriptFile.Some? || |folder.imageFiles| > 0
  }

  /** The folder `processDirectory` builds for a directory. */
  function ReadFolder(name: string, entries: seq<FsEntry>): UploadedFolder {
    AbsorbAll(UploadedFolder(name, None, []), Files(DirectoryEntry(name, entries)))
  }

  /** A folder is kept exactly when some file at any depth is a manuscript or an image. */
  lemma ReadFolderKept(name: string, entries: seq<FsEntry>)
    ensures var files := Files(DirectoryEntry(name, entries));
            Keeps(ReadFolder(name, entries)) <==> exists f :: f in files && (IsManuscript(f) || IsImage(f))
  {
    var files := Files(DirectoryEntry(name, entries));
    AbsorbAllCollects(UploadedFolder(name, None, []), files);
    var r := ReadFolder(name, entries);
    if exists f :: f in files && (IsManuscript(f) || IsImage(f)) {
      var f :| f in files && (IsManuscript(f) || IsImage(f));
      if !IsManuscript(f) {
        assert f in r.imageFiles;
      }
    }
    if r.manuscriptFile.Some? {
      assert r.manuscriptFile.value in files;
    }
    if |r.imageFiles| > 0 {
      assert r.imageFiles[0] in Images(files);
    }
  }

  /** The folder under construction in `processDirectory`, whose fields `processEntry`
      updates in place. */
  class FolderBuilder {
    const name: string
    var manuscriptFile: Option<FileInfo>
    var imageFiles: seq<FileInfo>

    function Folder(): UploadedFolder
      reads this
    {
      UploadedFolder(name, manuscriptFile, imageFiles)
    }

    constructor (name: string)
      ensures Folder() == UploadedFolder(name, None, [])
    {
      this.name := name;
      manuscriptFile, imageFiles := None, [];
    }

    /** `processEntry`: a file is classified, a directory is walked entry by entry. */
    method ProcessEntry(e: FsEntry)
      modifies this
      ensures Folder() == AbsorbAll(old(Folder()), Files(e))
      decreases e
    {
      match e {
        case FileEntry(f) =>
          if IsManuscript(f) {
            manuscriptFile := Some(f);
          } else if IsImage(f) {
            imageFiles := imageFiles + [f];
          }
          assert [f] == AllButLast([f]) + [f];
        case DirectoryEntry(_, entries) =>
          ProcessEntries(e, entries);
      }
    }

    /** The loop over a directory's entries. */
    method ProcessEntries(parent: FsEntry, entries: seq<FsEntry>)
      requires parent.DirectoryEntry? && parent.entries == entries
      modifies this
      ensures Folder() == AbsorbAll(old(Folder()), Files(parent))
      decreases parent, 0
    {
      var walked := seq(|entries|, k requires 0 <= k < |entries| => Files(entries[k]));
      var k := 0;
      while k < |entries|
        invariant 0 <= k <= |entries|
        invariant Folder() == AbsorbAll(old(Folder()), Concat(walked[..k]))
      {
        ProcessEntry(entries[k]);
        ConcatStep(walked, k);
        AbsorbAllAppend(old(Folder()), Concat(walked[..k]), Files(entries[k]));
        k := k + 1;
      }
      PrefixWhole(walked);
    }
  }

  /** `processDirectory`: walks the directory and returns the folder when it is kept. */
  method ProcessDirectory(name: string, entries: seq<FsEntry>) returns (r: Option<UploadedFolder>)
    ensures Keeps(ReadFolder(name, entries)) ==> r == Some(ReadFolder(name, entries))
    ensures !Keeps(ReadFolder(name, entries)) ==> r == None
  {
    var builder := new FolderBuilder(name);
    builder.ProcessEntry(DirectoryEntry(name, entries));
    var folder := builder.Folder();
    if Keeps(folder) {
      r := Some(folder);
    } else {
      r := None;
    }
  }
}
