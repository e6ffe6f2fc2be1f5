/** The file enumerator: `read_files(directory, file_extension)`.
    The directory listing (`os.listdir`, in whatever order it returns) is a
    parameter; the result is computed from it without touching a disk. */
module Listing {
  import opened Paths

  /** The paths `join(directory, f)` of every listed name `f` ending with `ext`,
      in listing order. */
  function ReadFiles(directory: string, listing: seq<string>, ext: string): (paths: seq<string>)
    ensures |paths| <= |listing|
  {
    if listing == [] then []
    else
      (if EndsWith(listing[0], ext) then [Join(directory, listing[0])] else [])
      + ReadFiles(directory, listing[1..], ext)
  }

  /** Enumerating a listing in two pieces gives the two results one after the
      other: the order of the listing is kept. */
  lemma {:induction false} ReadFilesAppend(directory: string, a: seq<string>, b: seq<string>, ext: string)
    ensures ReadFiles(directory, a + b, ext) == ReadFiles(directory, a, ext) + ReadFiles(directory, b, ext)
    decreases |a|
  {
    if a == [] {
      assert a + b == b;
    } else {
      var head := if EndsWith(a[0], ext) then [Join(directory, a[0])] else [];
      assert (a + b)[0] == a[0];
      assert (a + b)[1..] == a[1..] + b;
      ReadFilesAppend(directory, a[1..], b, ext);
      calc {
        ReadFiles(directory, a + b, ext);
        head + ReadFiles(directory, a[1..] + b, ext);
        head + (ReadFiles(directory, a[1..], ext) + ReadFiles(directory, b, ext));
        ReadFiles(directory, a, ext) + ReadFiles(directory, b, ext);
      }
    }
  }

  /** Every enumerated path is the join of some listed name that ends with
      the suffix. */
  lemma {:induction false} ReadFilesSound(directory: string, listing: seq<string>, ext: string, k: nat)
    requires k < |ReadFiles(directory, listing, ext)|
    ensures exists i :: 0 <= i < |listing| && EndsWith(listing[i], ext) &&
                        ReadFiles(directory, listing, ext)[k] == Join(directory, listing[i])
    decreases |listing|
  {
    var head := if EndsWith(listing[0], ext) then [Join(directory, listing[0])] else [];
    var rest := ReadFiles(directory, listing[1..], ext);
    assert ReadFiles(directory, listing, ext) == head + rest;
    if k < |head| {
      assert EndsWith(listing[0], ext) && ReadFiles(directory, listing, ext)[k] == Join(directory, listing[0]);
    } else {
      ReadFilesSound(directory, listing[1..], ext, k - |head|);
      var i :| 0 <= i < |listing[1..]| && EndsWith(listing[1..][i], ext) && rest[k - |head|] == Join(directory, listing[1..][i]);
      assert listing[i + 1] == listing[1..][i];
      assert EndsWith(listing[i + 1], ext) && ReadFiles(directory, listing, ext)[k] == Join(directory, listing[i + 1]);
    }
  }

  /** Every listed name that ends with the suffix is enumerated, joined to
      the directory. */
  lemma {:induction false} ReadFilesComplete(directory: string, listing: seq<string>, ext: string, i: nat)
    requires i < |listing| && EndsWith(listing[i], ext)
    ensures Join(directory, listing[i]) in ReadFiles(directory, listing, ext)
    decreases |listing|
  {
    var head := if EndsWith(listing[0], ext) then [Join(directory, listing[0])] else [];
    assert ReadFiles(directory, listing, ext) == head + ReadFiles(directory, listing[1..], ext);
    if i > 0 {
      assert listing[1..][i - 1] == listing[i];
      ReadFilesComplete(directory, listing[1..], ext, i - 1);
    }
  }

  /** Nothing to do for a suffix exactly when no listed name carries it; in
      particular an empty directory gives an empty result. */
  lemma {:induction false} ReadFilesEmpty(directory: string, listing: seq<string>, ext: string)
    ensures ReadFiles(directory, listing, ext) == [] <==> forall i :: 0 <= i < |listing| ==> !EndsWith(listing[i], ext)
    decreases |listing|
  {
    if listing != [] {
      ReadFilesEmpty(directory, listing[1..], ext);
      if forall i :: 0 <= i < |listing[1..]| ==> !EndsWith(listing[1..][i], ext) {
        forall i | 1 <= i < |listing| ensures !EndsWith(listing[i], ext) {
          assert listing[i] == listing[1..][i - 1];
        }
      }
    }
  }

  /** With slash-free listed names (as a directory listing has), the base name
      of every enumerated path is a listed name carrying the suffix. */
  lemma ReadFilesBasenames(directory: string, listing: seq<string>, ext: string)
    requires forall i :: 0 <= i < |listing| ==> '/' !in listing[i]
    ensures forall k :: 0 <= k < |ReadFiles(directory, listing, ext)| ==>
              var b := Basename(ReadFiles(directory, listing, ext)[k]);
              b in listing && EndsWith(b, ext)
  {
    var paths := ReadFiles(directory, listing, ext);
    forall k | 0 <= k < |paths|
      ensures Basename(paths[k]) in listing && EndsWith(Basename(paths[k]), ext)
    {
      ReadFilesSound(directory, listing, ext, k);
      var i :| 0 <= i < |listing| && EndsWith(listing[i], ext) && paths[k] == Join(directory, listing[i]);
      BasenameOfJoin(directory, listing[i]);
    }
  }

  /** The match is on the name's suffix, not on a real extension: "x12.seg2"
      is picked up for the suffix "2.seg2", and "a3.seg2" is not. */
  lemma SuffixNotExtension()
    ensures ReadFiles("in", ["x12.seg2", "a3.seg2"], "2.seg2") == ["in/x12.seg2"]
  {
    var listing := ["x12.seg2", "a3.seg2"];
    assert "x12.seg2"[2..] == "2.seg2";
    assert "a3.seg2"[1..] != "2.seg2" by { assert "a3.seg2"[1] != "2.seg2"[0]; }
    assert listing[1..][1..] == [];
    assert ReadFiles("in", listing[1..], "2.seg2") == [];
    assert Join("in", "x12.seg2") == "in/x12.seg2";
  }
}
