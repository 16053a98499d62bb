// core/artifact_manager.py: text artifacts saved as .txt files in one directory. The
// directory is the sequence of its files in the order the file system lists them; file
// modification times are integer timestamps.
module Artifacts {
  import opened Wrappers
  import opened Text
  import opened FileNames
  import opened Ranking

  datatype ArtifactFile = ArtifactFile(name: string, content: string, mtime: int)

  const TXT := ".txt"
  const SAVE_ERROR := "Impossibile salvare l'artefatto: "
  const NO_ARTIFACTS := "Non ci sono artefatti salvati."
  const LIST_HEADER := "Ecco gli artefatti salvati, dal più recente:"
  const SEPARATOR := " ... "

  /** A directory never holds two files with one name. */
  predicate DistinctNames(files: seq<ArtifactFile>) {
    forall i, j :: 0 <= i < j < |files| ==> files[i].name != files[j].name
  }

  function NamesOf(files: seq<ArtifactFile>): set<string> {
    set f | f in files :: f.name
  }

  function MTime(f: ArtifactFile): int {
    f.mtime
  }

  /** The name save_artifact starts from: the one supplied, unless it is missing, empty or
      longer than five words, in which case the title derived from the content. */
  function RequestedName(content: string, filename: Option<string>): string {
    if filename.None? || filename.value == "" || |Words(filename.value)| > MAX_TITLE_WORDS
    then TitleFromText(content)
    else filename.value
  }

  /** The sanitised name with ".txt" appended unless it already ends with it. */
  function SafeName(content: string, filename: Option<string>): (r: string)
    ensures EndsWith(r, TXT)
  {
    var safe := SanitizedName(RequestedName(content, filename), ARTIFACT_PLACEHOLDER);
    if EndsWith(safe, TXT) then safe else safe + TXT
  }

  /** The k-th alternative name tried when the safe name is taken: base_k.txt. */
  function Candidate(safe: string, k: nat): string {
    BeforeLastDot(safe) + "_" + IntToString(k) + TXT
  }

  lemma CandidateInjective(safe: string, j: nat, k: nat)
    requires Candidate(safe, j) == Candidate(safe, k)
    ensures j == k
  {
    var b := BeforeLastDot(safe);
    var x := Candidate(safe, j);
    assert x[|b| + 1..|x| - 4] == IntToString(j);
    assert x[|b| + 1..|x| - 4] == IntToString(k);
    IntToStringInjective(j, k);
  }

  /** Every name save_artifact can choose ends with ".txt" and is safe for Windows. */
  lemma SafeNameShape(content: string, filename: Option<string>)
    ensures EndsWith(SafeName(content, filename), TXT)
    ensures HasNoInvalid(SafeName(content, filename))
  {
    PlaceholdersClean();
    SanitizedIsClean(RequestedName(content, filename), ARTIFACT_PLACEHOLDER);
    var safe := SanitizedName(RequestedName(content, filename), ARTIFACT_PLACEHOLDER);
    if !EndsWith(safe, TXT) {
      var r := safe + TXT;
      assert r[|r| - |TXT|..] == TXT;
      forall k | 0 <= k < |r| ensures r[k] !in INVALID {
        if k >= |safe| {
          assert r[k] == TXT[k - |safe|];
        }
      }
    }
  }

  /** The name save_artifact settles on: the safe name if it is free, otherwise the first
      free candidate base_1.txt, base_2.txt, ... */
  ghost predicate IsFirstFree(names: set<string>, safe: string, name: string) {
    name !in names
    && (safe !in names ==> name == safe)
    && (safe in names ==>
          exists k: nat :: 1 <= k && name == Candidate(safe, k)
                           && forall j: nat :: 1 <= j < k ==> Candidate(safe, j) in names)
  }

  lemma SubsetSize(a: set<string>, b: set<string>)
    requires a <= b
    ensures |a| <= |b|
  {
    assert b == a + (b - a);
  }

  /** The collision loop of save_artifact: try the safe name, then base_1.txt, base_2.txt,
      ... until one is not taken. */
  method FreeName(names: set<string>, safe: string) returns (path: string)
    ensures IsFirstFree(names, safe, path)
  {
    path := safe;
    if path in names {
      var counter := 1;
      path := Candidate(safe, counter);
      ghost var tried: set<string> := {};
      while path in names
        invariant counter >= 1 && path == Candidate(safe, counter)
        invariant tried <= names && |tried| == counter - 1
        invariant forall j: nat :: 1 <= j < counter ==> Candidate(safe, j) in tried
        invariant forall n :: n in tried ==> exists j: nat :: 1 <= j < counter && n == Candidate(safe, j)
        decreases |names| - |tried|
      {
        assert path !in tried by {
          forall n | n in tried ensures n != path {
            var j: nat :| 1 <= j < counter && n == Candidate(safe, j);
            if n == path {
              CandidateInjective(safe, j, counter);
            }
          }
        }
        tried := tried + {path};
        SubsetSize(tried, names);
        counter := counter + 1;
        path := Candidate(safe, counter);
      }
      assert forall j: nat :: 1 <= j < counter ==> Candidate(safe, j) in names;
    }
  }

  /** The .txt files of a directory, in listing order (glob('*.txt')). */
  function TxtFiles(files: seq<ArtifactFile>): (r: seq<ArtifactFile>)
    ensures forall f :: f in r <==> f in files && EndsWith(f.name, TXT)
    ensures |r| <= |files|
  {
    if files == [] then []
    else
      var last := files[|files| - 1];
      TxtFiles(files[..|files| - 1]) + (if EndsWith(last.name, TXT) then [last] else [])
  }

  /** What get_artifacts_list returns: the .txt files, most recently modified first. */
  function ArtifactsListing(files: seq<ArtifactFile>): seq<ArtifactFile> {
    SortDesc(TxtFiles(files), MTime)
  }

  /** The listing holds exactly the .txt files, newest first. */
  lemma ListingSpec(files: seq<ArtifactFile>)
    ensures SortedDesc(ArtifactsListing(files), MTime)
    ensures multiset(ArtifactsListing(files)) == multiset(TxtFiles(files))
    ensures |ArtifactsListing(files)| == |TxtFiles(files)|
    ensures forall f :: f in ArtifactsListing(files) <==> f in files && EndsWith(f.name, TXT)
  {
    SortDescSpec(TxtFiles(files), MTime);
    forall f ensures f in ArtifactsListing(files) <==> f in TxtFiles(files) {
      assert f in ArtifactsListing(files) <==> f in multiset(ArtifactsListing(files));
      assert f in TxtFiles(files) <==> f in multiset(TxtFiles(files));
    }
  }

  function CountError(n: nat): string {
    "Numero non valido. Ci sono " + IntToString(n) + " artefatti."
  }

  /** get_artifact_by_number: the name and text of the n-th listed file (counting from 1),
      or the range error that reports how many there are. */
  function ArtifactByNumber(files: seq<ArtifactFile>, n: int): (r: Result<(string, string)>)
    ensures r.Success? <==> 1 <= n <= |TxtFiles(files)|
    ensures r.Failure? ==> r.error == CountError(|TxtFiles(files)|)
    ensures r.Success? ==> exists f :: f in files && EndsWith(f.name, TXT) && r.value == (f.name, f.content)
  {
    ListingSpec(files);
    var listing := ArtifactsListing(files);
    if 1 <= n <= |listing| then
      assert listing[n - 1] in listing;
      Success((listing[n - 1].name, listing[n - 1].content))
    else Failure(CountError(|listing|))
  }

  /** Number 1 is the most recent file: a file saved later than every other one is the one
      get_artifact_by_number(1) returns. */
  lemma NewestIsNumberOne(files: seq<ArtifactFile>, f: ArtifactFile)
    requires DistinctNames(files + [f]) && EndsWith(f.name, TXT)
    requires forall g :: g in files ==> g.mtime < f.mtime
    ensures ArtifactByNumber(files + [f], 1) == Success((f.name, f.content))
  {
    var all := files + [f];
    var txt := TxtFiles(all);
    assert all[..|all| - 1] == files;
    assert f in txt;
    forall g | g in txt && g != f ensures MTime(g) < MTime(f) {
      assert g in all;
    }
    NewestRanksFirst(txt, MTime, f);
  }

  /** get_artifact_content: the text of the named file, if there is one. */
  function ContentOf(files: seq<ArtifactFile>, name: string): (r: Option<string>)
    ensures r.None? <==> name !in NamesOf(files)
    ensures r.Some? ==> exists f :: f in files && f.name == name && f.content == r.value
  {
    if files == [] then None
    else if files[0].name == name then Some(files[0].content)
    else
      assert forall f :: f in files[1..] ==> f in files;
      assert NamesOf(files) == {files[0].name} + NamesOf(files[1..]);
      ContentOf(files[1..], name)
  }

  lemma ContentOfPresent(files: seq<ArtifactFile>, f: ArtifactFile)
    requires DistinctNames(files) && f in files
    ensures ContentOf(files, f.name) == Some(f.content)
  {
    var g :| g in files && g.name == f.name && g.content == ContentOf(files, f.name).value;
    var i :| 0 <= i < |files| && files[i] == f;
    var j :| 0 <= j < |files| && files[j] == g;
    assert i == j;
  }

  /** The directory without the named file. */
  function Without(files: seq<ArtifactFile>, name: string): (r: seq<ArtifactFile>)
    ensures forall f :: f in r <==> f in files && f.name != name
    ensures DistinctNames(files) ==> DistinctNames(r)
  {
    if files == [] then []
    else
      var rest := Without(files[1..], name);
      assert forall f :: f in files[1..] ==> f in files;
      if files[0].name == name then rest
      else
        assert DistinctNames(files) ==> files[0].name !in NamesOf(rest) by {
          if DistinctNames(files) {
            forall f | f in rest ensures f.name != files[0].name {
              var i :| 0 <= i < |files[1..]| && files[1..][i] == f;
              assert files[i + 1] == f;
            }
          }
        }
        [files[0]] + rest
  }

  /** Removing a file removes exactly its name. */
  lemma WithoutNames(files: seq<ArtifactFile>, name: string)
    ensures NamesOf(Without(files, name)) == NamesOf(files) - {name}
  {
    var w := Without(files, name);
    forall x | x in NamesOf(files) - {name} ensures x in NamesOf(w) {
      var f :| f in files && f.name == x;
      assert f in w;
    }
  }

  /** One spoken line of format_artifact_list. */
  function ListLine(i: nat, f: ArtifactFile, fmt: int -> string): string {
    "Numero " + IntToString(i) + ": " + BeforeLastDot(f.name) + ", salvato il " + fmt(f.mtime)
  }

  function ListLines(listing: seq<ArtifactFile>, fmt: int -> string): (r: seq<string>)
    ensures |r| == |listing|
    ensures forall k :: 0 <= k < |listing| ==> r[k] == ListLine(k + 1, listing[k], fmt)
  {
    seq(|listing|, k requires 0 <= k < |listing| => ListLine(k + 1, listing[k], fmt))
  }

  /** What format_artifact_list says: a fixed sentence for an empty store, otherwise a
      header and one numbered line per listed file, joined by " ... ". */
  function ListText(files: seq<ArtifactFile>, fmt: int -> string): string {
    var listing := ArtifactsListing(files);
    if listing == [] then NO_ARTIFACTS
    else Join([LIST_HEADER] + ListLines(listing, fmt), SEPARATOR)
  }

  lemma ListLinesSnoc(listing: seq<ArtifactFile>, i: nat, fmt: int -> string)
    requires i < |listing|
    ensures ListLines(listing[..i + 1], fmt) == ListLines(listing[..i], fmt) + [ListLine(i + 1, listing[i], fmt)]
  {
    var a := ListLines(listing[..i + 1], fmt);
    var b := ListLines(listing[..i], fmt) + [ListLine(i + 1, listing[i], fmt)];
    forall k | 0 <= k < |a| ensures a[k] == b[k] {
      if k < i {
        assert listing[..i + 1][k] == listing[..i][k];
      }
    }
  }

  lemma {:induction false} JoinPrefix(parts: seq<string>, sep: string)
    requires parts != []
    ensures StartsWith(Join(parts, sep), parts[0])
  {
  }

  /** The spoken list is the fixed sentence exactly when no .txt file exists, and starts
      with the header otherwise. */
  lemma ListTextShape(files: seq<ArtifactFile>, fmt: int -> string)
    ensures TxtFiles(files) == [] <==> ListText(files, fmt) == NO_ARTIFACTS
    ensures TxtFiles(files) != [] ==> StartsWith(ListText(files, fmt), LIST_HEADER)
  {
    ListingSpec(files);
    var listing := ArtifactsListing(files);
    if listing != [] {
      var parts := [LIST_HEADER] + ListLines(listing, fmt);
      JoinPrefix(parts, SEPARATOR);
      assert |Join(parts, SEPARATOR)| > |NO_ARTIFACTS| by {
        assert Join(parts, SEPARATOR)[..|LIST_HEADER|] == LIST_HEADER;
      }
    }
  }

  class ArtifactManager {
    var files: seq<ArtifactFile>

    predicate Valid()
      reads this
    {
      DistinctNames(files)
    }

    constructor(existing: seq<ArtifactFile>)
      requires DistinctNames(existing)
      ensures Valid() && files == existing
    {
      files := existing;
    }

    /** save_artifact: choose the name, never overwrite an existing file, and add the new
        file; a failing write leaves the directory as it was. */
    method SaveArtifact(content: string, filename: Option<string>, now: int, writeError: Option<string>)
      returns (r: Result<string>)
      requires Valid()
      modifies this
      ensures Valid()
      ensures writeError.Some? ==> r == Failure(SAVE_ERROR + writeError.value) && files == old(files)
      ensures writeError.None? ==>
                r.Success? && IsFirstFree(NamesOf(old(files)), SafeName(content, filename), r.value)
                && files == old(files) + [ArtifactFile(r.value, content, now)]
    {
      var name := if filename.None? || filename.value == "" || |Words(filename.value)| > MAX_TITLE_WORDS
                  then TitleFromText(content) else filename.value;
      var safe := SanitizeFilename(name, ARTIFACT_PLACEHOLDER);
      if !EndsWith(safe, TXT) {
        safe := safe + TXT;
      }
      assert safe == SafeName(content, filename);
      var path := FreeName(NamesOf(files), safe);
      if writeError.Some? {
        return Failure(SAVE_ERROR + writeError.value);
      }
      files := files + [ArtifactFile(path, content, now)];
      r := Success(path);
    }

    /** get_artifacts_list: collect the .txt files, then sort them newest first. */
    method GetArtifactsList() returns (r: seq<ArtifactFile>)
      ensures r == ArtifactsListing(files)
    {
      var found: seq<ArtifactFile> := [];
      var i := 0;
      while i < |files|
        invariant 0 <= i <= |files|
        invariant found == TxtFiles(files[..i])
      {
        assert files[..i + 1][..i] == files[..i];
        if EndsWith(files[i].name, TXT) {
          found := found + [files[i]];
        }
        i := i + 1;
      }
      assert files[..i] == files;
      r := SortDesc(found, MTime);
    }

    /** get_artifact_content */
    method GetArtifactContent(filename: string) returns (r: Result<string>)
      ensures ContentOf(files, filename).None? ==> r == Failure("Artefatto non trovato: " + filename)
      ensures ContentOf(files, filename).Some? ==> r == Success(ContentOf(files, filename).value)
    {
      var c := ContentOf(files, filename);
      if c.None? {
        return Failure("Artefatto non trovato: " + filename);
      }
      r := Success(c.value);
    }

    /** get_artifact_by_number */
    method GetArtifactByNumber(number: int) returns (r: Result<(string, string)>)
      requires Valid()
      ensures r == ArtifactByNumber(files, number)
    {
      var artifacts := GetArtifactsList();
      ListingSpec(files);
      if !(1 <= number <= |artifacts|) {
        return Failure(CountError(|artifacts|));
      }
      var filename := artifacts[number - 1].name;
      assert artifacts[number - 1] in artifacts;
      ContentOfPresent(files, artifacts[number - 1]);
      var content := GetArtifactContent(filename);
      r := Success((filename, content.value));
    }

    /** format_artifact_list */
    method FormatArtifactList(fmt: int -> string) returns (text: string)
      ensures text == ListText(files, fmt)
    {
      var artifacts := GetArtifactsList();
      if artifacts == [] {
        return NO_ARTIFACTS;
      }
      var lines := [LIST_HEADER];
      var i := 0;
      while i < |artifacts|
        invariant 0 <= i <= |artifacts|
        invariant lines == [LIST_HEADER] + ListLines(artifacts[..i], fmt)
      {
        ListLinesSnoc(artifacts, i, fmt);
        lines := lines + [ListLine(i + 1, artifacts[i], fmt)];
        i := i + 1;
      }
      assert artifacts[..i] == artifacts;
      text := Join(lines, SEPARATOR);
    }

    /** delete_artifact: true exactly when the file existed and was removed; otherwise the
        directory is unchanged. */
    method DeleteArtifact(filename: string, unlinkFails: bool) returns (ok: bool)
      requires Valid()
      modifies this
      ensures Valid()
      ensures ok <==> filename in NamesOf(old(files)) && !unlinkFails
      ensures ok ==> files == Without(old(files), filename)
      ensures !ok ==> files == old(files)
    {
      if filename !in NamesOf(files) || unlinkFails {
        return false;
      }
      files := Without(files, filename);
      ok := true;
    }
  }
}
