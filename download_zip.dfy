/** Zipping text files for download (src/utils/_downloadZip.ts). Each file becomes a zip
    entry named with a `.txt` extension and the archive is saved with a `.zip` extension.
    The archive is its entries in order of first insertion, keyed by name: adding a name
    that is already present replaces that entry's content in place. Compression, the blob and
    the browser download are not modelled. */
module DownloadZip {
  import opened Common

  datatype ZipFileItem = ZipFileItem(fileName: string, content: string)
  datatype ZipEntry = ZipEntry(name: string, content: string)

  const TxtSuffix: string := ".txt"
  const ZipSuffix: string := ".zip"

  /** `name.endsWith(suffix) ? name : name + suffix`. */
  function WithSuffix(name: string, suffix: string): (r: string)
    ensures EndsWith(r, suffix)
    ensures StartsWith(r, name) && |r| <= |name| + |suffix|
  {
    if EndsWith(name, suffix) then name else name + suffix
  }

  /** Normalising twice is normalising once, and a name already ending in the suffix is
      kept. */
  lemma WithSuffixIdempotent(name: string, suffix: string)
    ensures WithSuffix(WithSuffix(name, suffix), suffix) == WithSuffix(name, suffix)
    ensures EndsWith(name, suffix) <==> WithSuffix(name, suffix) == name
  {
    if !EndsWith(name, suffix) {
      assert |WithSuffix(name, suffix)| == |name| + |suffix|;
    }
  }

  /** The entry a file becomes. */
  function Entry(file: ZipFileItem): ZipEntry {
    ZipEntry(WithSuffix(file.fileName, TxtSuffix), file.content)
  }

  /** The name under which the archive is saved. */
  function ZipFileName(zipName: string): string {
    WithSuffix(zipName, ZipSuffix)
  }

  function Names(entries: seq<ZipEntry>): (r: seq<string>)
    ensures |r| == |entries| && forall i :: 0 <= i < |r| ==> r[i] == entries[i].name
  {
    if entries == [] then [] else [entries[0].name] + Names(entries[1..])
  }

  /** Every entry named like `e` becomes `e`; the others are kept. */
  function Replace(entries: seq<ZipEntry>, e: ZipEntry): (r: seq<ZipEntry>)
    ensures |r| == |entries|
    ensures forall i :: 0 <= i < |r| ==> r[i] == if entries[i].name == e.name then e else entries[i]
  {
    if entries == [] then []
    else [if entries[0].name == e.name then e else entries[0]] + Replace(entries[1..], e)
  }

  /** Replacing contents keeps the names. */
  lemma ReplaceNames(entries: seq<ZipEntry>, e: ZipEntry)
    ensures Names(Replace(entries, e)) == Names(entries)
  {
    assert forall i :: 0 <= i < |entries| ==> Names(Replace(entries, e))[i] == Names(entries)[i];
  }

  /** `zip.file(name, content)`: a new name is added last, a present one gets the new
      content where it stands. */
  function Put(entries: seq<ZipEntry>, e: ZipEntry): (r: seq<ZipEntry>)
    ensures Names(r) == if e.name in Names(entries) then Names(entries) else Names(entries) + [e.name]
  {
    if e.name in Names(entries) then
      ReplaceNames(entries, e);
      Replace(entries, e)
    else
      assert Names(entries + [e]) == Names(entries) + [e.name];
      entries + [e]
  }

  /** The archive after adding `files` in order to an empty one. */
  function Zip(files: seq<ZipFileItem>): (r: seq<ZipEntry>)
    decreases |files|
  {
    if files == [] then [] else Put(Zip(AllButLast(files)), Entry(Last(files)))
  }

  /** The `forEach` over the files. */
  method AddEntries(files: seq<ZipFileItem>) returns (entries: seq<ZipEntry>)
    ensures entries == Zip(files)
  {
    entries := [];
    for k := 0 to |files|
      invariant entries == Zip(files[..k])
    {
      var normalizedName := if EndsWith(files[k].fileName, TxtSuffix) then files[k].fileName else files[k].fileName + TxtSuffix;
      ZipStep(files, k);
      entries := Put(entries, ZipEntry(normalizedName, files[k].content));
    }
    assert files[..|files|] == files;
  }

  /** One more file is one more `Put`. */
  lemma ZipStep(files: seq<ZipFileItem>, k: nat)
    requires k < |files|
    ensures Zip(files[..k + 1]) == Put(Zip(files[..k]), Entry(files[k]))
  {
    assert AllButLast(files[..k + 1]) == files[..k];
    assert Last(files[..k + 1]) == files[k];
  }

  /** `downloadZip`: the archive's entries and the name it is saved under. */
  method DownloadZip(files: seq<ZipFileItem>, zipName: string) returns (entries: seq<ZipEntry>, savedAs: string)
    ensures entries == Zip(files)
    ensures savedAs == ZipFileName(zipName)
  {
    entries := AddEntries(files);
    savedAs := if EndsWith(zipName, ZipSuffix) then zipName else zipName + ZipSuffix;
  }

  /** No two entries of the archive share a name. */
  lemma {:induction false} ZipUnique(files: seq<ZipFileItem>)
    ensures NoDuplicates(Names(Zip(files)))
    decreases |files|
  {
    if files != [] {
      var prev := Zip(AllButLast(files));
      ZipUnique(AllButLast(files));
      var e := Entry(Last(files));
      if e.name !in Names(prev) {
        AppendNoDuplicates(Names(prev), e.name);
      }
    }
  }

  /** Every file has an entry under its normalised name. */
  lemma {:induction false} ZipCovers(files: seq<ZipFileItem>)
    ensures forall k :: 0 <= k < |files| ==> Entry(files[k]).name in Names(Zip(files))
    decreases |files|
  {
    if files != [] {
      var prev := Zip(AllButLast(files));
      ZipCovers(AllButLast(files));
      forall k | 0 <= k < |files| ensures Entry(files[k]).name in Names(Zip(files)) {
        if k < |files| - 1 {
          assert files[k] == AllButLast(files)[k];
        }
      }
    }
  }

  /** No later file is normalised to the same name as file `k`. */
  predicate LastNamed(files: seq<ZipFileItem>, k: int)
    requires 0 <= k < |files|
  {
    forall j :: k < j < |files| ==> Entry(files[j]).name != Entry(files[k]).name
  }

  /** `x` is the entry of the last file normalised to its name. */
  ghost predicate FromLast(files: seq<ZipFileItem>, x: ZipEntry) {
    exists k :: 0 <= k < |files| && x == Entry(files[k]) && LastNamed(files, k)
  }

  lemma FromLastLast(files: seq<ZipFileItem>)
    requires files != []
    ensures FromLast(files, Entry(Last(files)))
  {
    assert LastNamed(files, |files| - 1);
  }

  lemma FromLastGrow(files: seq<ZipFileItem>, x: ZipEntry)
    requires files != [] && FromLast(AllButLast(files), x) && x.name != Entry(Last(files)).name
    ensures FromLast(files, x)
  {
    var init, last := AllButLast(files), Last(files);
    InitLast(files);
    var k :| 0 <= k < |init| && x == Entry(init[k]) && LastNamed(init, k);
    LastNamedGrow(init, last, k);
    assert files[k] == init[k];
  }

  /** A file no later file shadows stays unshadowed when a file with another name follows. */
  lemma LastNamedGrow(init: seq<ZipFileItem>, last: ZipFileItem, k: nat)
    requires k < |init| && LastNamed(init, k)
    requires Entry(last).name != Entry(init[k]).name
    ensures LastNamed(init + [last], k)
  {
    var files := init + [last];
    forall j | k < j < |files|
      ensures Entry(files[j]).name != Entry(files[k]).name
    {
      if j < |init| {
        assert files[j] == init[j];
      }
    }
  }

  /** An entry of `Put(entries, e)` is `e` or an older entry with another name at the same
      place. */
  lemma PutAt(entries: seq<ZipEntry>, e: ZipEntry, i: nat)
    requires i < |Put(entries, e)|
    ensures Put(entries, e)[i] == e || (i < |entries| && Put(entries, e)[i] == entries[i] && entries[i].name != e.name)
  {
    assert |Names(Put(entries, e))| == |Put(entries, e)|;
    if e.name !in Names(entries) && i < |entries| {
      assert Names(entries)[i] == entries[i].name;
    }
  }

  /** Every entry is the last file added under its name. */
  lemma {:induction false} ZipFromLast(files: seq<ZipFileItem>)
    ensures forall i :: 0 <= i < |Zip(files)| ==> FromLast(files, Zip(files)[i])
    decreases |files|
  {
    if files != [] {
      var init := AllButLast(files);
      var prev := Zip(init);
      ZipFromLast(init);
      var e := Entry(Last(files));
      var z := Zip(files);
      forall i | 0 <= i < |z|
        ensures FromLast(files, z[i])
      {
        PutAt(prev, e, i);
        if z[i] == e {
          FromLastLast(files);
        } else {
          FromLastGrow(files, z[i]);
        }
      }
    }
  }

  /** Every entry's name ends in `.txt` and its content is that of the last file with its
      name. */
  lemma ZipEntriesNamed(files: seq<ZipFileItem>, i: nat)
    requires i < |Zip(files)|
    ensures EndsWith(Zip(files)[i].name, TxtSuffix)
    ensures exists k :: 0 <= k < |files| && Zip(files)[i] == Entry(files[k]) && LastNamed(files, k)
  {
    ZipFromLast(files);
    assert FromLast(files, Zip(files)[i]);
  }

  /** Each file's entry, in order. */
  function Entries(files: seq<ZipFileItem>): (r: seq<ZipEntry>)
    ensures |r| == |files| && forall i :: 0 <= i < |r| ==> r[i] == Entry(files[i])
  {
    if files == [] then [] else [Entry(files[0])] + Entries(files[1..])
  }

  /** The normalised names of the files. */
  function EntryNames(files: seq<ZipFileItem>): (r: seq<string>)
    ensures |r| == |files| && forall i :: 0 <= i < |r| ==> r[i] == Entry(files[i]).name
  {
    if files == [] then [] else [Entry(files[0]).name] + EntryNames(files[1..])
  }

  /** When no two files are normalised to the same name, the archive holds one entry per
      file, in the files' order. */
  lemma {:induction false} ZipDistinct(files: seq<ZipFileItem>)
    requires NoDuplicates(EntryNames(files))
    ensures Zip(files) == Entries(files)
    decreases |files|
  {
    if files != [] {
      var init := AllButLast(files);
      var names := EntryNames(files);
      NoDuplicatesInit(names);
      EntryNamesInit(files);
      ZipDistinct(init);
      NamesOfEntries(init);
      EntriesInit(files);
    }
  }

  lemma EntryNamesInit(files: seq<ZipFileItem>)
    requires files != []
    ensures EntryNames(AllButLast(files)) == AllButLast(EntryNames(files))
    ensures Entry(Last(files)).name == Last(EntryNames(files))
  {
    var init := AllButLast(files);
    forall i | 0 <= i < |init| ensures EntryNames(init)[i] == AllButLast(EntryNames(files))[i] {
      assert init[i] == files[i];
    }
  }

  lemma NamesOfEntries(files: seq<ZipFileItem>)
    ensures Names(Entries(files)) == EntryNames(files)
  {
    forall i | 0 <= i < |files| ensures Names(Entries(files))[i] == EntryNames(files)[i] {
      assert Entries(files)[i] == Entry(files[i]);
    }
  }

  lemma EntriesInit(files: seq<ZipFileItem>)
    requires files != []
    ensures Entries(files) == Entries(AllButLast(files)) + [Entry(Last(files))]
  {
    var init := AllButLast(files);
    var whole := Entries(files);
    var parts := Entries(init) + [Entry(Last(files))];
    forall i | 0 <= i < |whole| ensures whole[i] == parts[i] {
      if i < |init| {
        assert init[i] == files[i];
      }
    }
    assert whole == parts;
  }
}
