/** Saving a file that code execution created: resolving its name from the
    file metadata (one retry, then a fallback), reducing the name to one
    clean path component, and choosing what to write, the content or a
    placeholder that explains the failure. Also which file ids get a
    download at all. The network answers are parameters; writing to disk is
    not modelled, only the path and the bytes or text chosen. */
module Downloads {
  import opened Prelude

  // ---------------------------------------------------------------------------
  // Paths

  /** The text between the '/' separators of a path, empty pieces included. */
  function Segments(s: string): (r: seq<string>)
    ensures |r| >= 1
    ensures forall k | 0 <= k < |r| :: '/' !in r[k]
    decreases |s|
  {
    var i := IndexOf(s, '/');
    assert forall c | c in s[..i] :: c != '/' by {
      forall c | c in s[..i] ensures c != '/' {
        var j :| 0 <= j < i && s[..i][j] == c;
        assert s[j] == c;
      }
    }
    if i == |s| then [s] else [s[..i]] + Segments(s[i + 1..])
  }

  lemma NoSlash(s: string)
    requires '/' !in s
    ensures IndexOf(s, '/') == |s|
  {
  }

  /** A further piece after a '/' adds one segment. */
  lemma {:induction false} SegmentsSnoc(a: string, name: string)
    requires '/' !in name
    ensures Segments(a + "/" + name) == Segments(a) + [name]
    decreases |a|
  {
    var s := a + "/" + name;
    var i := IndexOf(a, '/');
    NoSlash(name);
    if i == |a| {
      assert IndexOf(s, '/') == |a| by {
        assert s[|a|] == '/';
        assert forall j | 0 <= j < |a| :: s[j] == a[j];
      }
      assert s[..|a|] == a && s[|a| + 1..] == name;
    } else {
      assert IndexOf(s, '/') == i by {
        assert s[i] == '/';
        assert forall j | 0 <= j < i :: s[j] == a[j];
      }
      assert s[..i] == a[..i];
      assert s[i + 1..] == a[i + 1..] + "/" + name;
      SegmentsSnoc(a[i + 1..], name);
    }
  }

  /** The path components: the segments without the empty ones and ".". */
  function Kept(segs: seq<string>): (r: seq<string>)
    ensures forall k | 0 <= k < |r| :: r[k] != "" && r[k] != "."
    ensures forall x | x in r :: x in segs
  {
    if segs == [] then []
    else (if segs[0] != "" && segs[0] != "." then [segs[0]] else []) + Kept(segs[1..])
  }

  lemma {:induction false} KeptSnoc(segs: seq<string>, x: string)
    requires x != "" && x != "."
    ensures Kept(segs + [x]) == Kept(segs) + [x]
    decreases |segs|
  {
    if segs == [] {
      assert [x][1..] == [];
    } else {
      assert (segs + [x])[0] == segs[0] && (segs + [x])[1..] == segs[1..] + [x];
      KeptSnoc(segs[1..], x);
    }
  }

  /** A name that can stand as a file inside a directory. */
  predicate ValidComponent(n: string) {
    n != "" && n != "." && n != ".." && '/' !in n
  }

  /** `Path::file_name` on Unix: the last component, or None when there is
      none or it is "..". */
  function FileName(path: string): (r: Option<string>)
    ensures r.Some? ==> ValidComponent(r.value)
  {
    var comps := Kept(Segments(path));
    if comps == [] || comps[|comps| - 1] == ".." then None
    else
      assert comps[|comps| - 1] in Segments(path);
      Some(comps[|comps| - 1])
  }

  /** `Path::join` of a directory and a relative name. */
  function JoinPath(dir: string, name: string): (r: string)
    ensures dir <= r
    ensures |name| <= |r| && r[|r| - |name|..] == name
    ensures dir != "" ==> |dir| < |r| - |name| + 1 && r[|r| - |name| - 1] == '/'
    ensures |r| == |dir| + |name| + (if dir == "" || dir[|dir| - 1] == '/' then 0 else 1)
  {
    if dir == "" then name
    else if dir[|dir| - 1] == '/' then dir + name
    else dir + "/" + name
  }

  /** A valid component joined to any directory is the file name of the
      result: the file lands directly in that directory. */
  lemma JoinPathFileName(dir: string, name: string)
    requires ValidComponent(name)
    ensures FileName(JoinPath(dir, name)) == Some(name)
  {
    if dir == "" {
      NoSlash(name);
      assert name[..|name|] == name;
      assert Segments(name) == [name];
      KeptSnoc([], name);
      assert [] + [name] == [name];
    } else if dir[|dir| - 1] == '/' {
      var d := dir[..|dir| - 1];
      assert dir + name == d + "/" + name;
      SegmentsSnoc(d, name);
      KeptSnoc(Segments(d), name);
    } else {
      SegmentsSnoc(dir, name);
      KeptSnoc(Segments(dir), name);
    }
  }

  // ---------------------------------------------------------------------------
  // Names

  const UNNAMED: string := "unnamed_file"

  /** The last component of the resolved name, or "unnamed_file". */
  function SafeFileName(name: string): (r: string)
    ensures ValidComponent(r)
    ensures FileName(name).Some? ==> r == FileName(name).value
    ensures FileName(name).None? ==> r == UNNAMED
  {
    assert '/' !in UNNAMED by {
      forall j | 0 <= j < |UNNAMED| ensures UNNAMED[j] != '/' {}
    }
    FileName(name).GetOr(UNNAMED)
  }

  /** Characters a cleaned name keeps; `isAlnum` is `char::is_alphanumeric`. */
  predicate Allowed(c: char, isAlnum: char -> bool) {
    isAlnum(c) || c == '.' || c == '-' || c == '_'
  }

  /** Each character kept when allowed, replaced by '_' otherwise. */
  function CleanFileName(s: string, isAlnum: char -> bool): (r: string)
    ensures |r| == |s|
    ensures forall i | 0 <= i < |s| :: Allowed(r[i], isAlnum)
    ensures forall i | 0 <= i < |s| :: Allowed(s[i], isAlnum) ==> r[i] == s[i]
    ensures forall i | 0 <= i < |s| :: !Allowed(s[i], isAlnum) ==> r[i] == '_'
  {
    seq(|s|, i requires 0 <= i < |s| => if Allowed(s[i], isAlnum) then s[i] else '_')
  }

  /** Cleaning a cleaned name changes nothing. */
  lemma CleanIdempotent(s: string, isAlnum: char -> bool)
    ensures CleanFileName(CleanFileName(s, isAlnum), isAlnum) == CleanFileName(s, isAlnum)
  {
  }

  /** Cleaning keeps a valid component valid: it adds no '/', and it maps
      only '.' to '.', so it cannot produce "." or "..". */
  lemma CleanKeepsComponentValid(s: string, isAlnum: char -> bool)
    requires ValidComponent(s)
    ensures ValidComponent(CleanFileName(s, isAlnum))
  {
    var r := CleanFileName(s, isAlnum);
    forall j | 0 <= j < |r| ensures r[j] != '/' {
      assert s[j] in s;
    }
  }

  /** One answer of the metadata endpoint. */
  datatype MetaResult = MetaOk(filename: string) | MetaErr(error: string)

  /** The answer of the content endpoint. */
  datatype DownloadResult = Downloaded(content: seq<Byte>) | DownloadFailed(error: string)

  /** The name the metadata gives: the first success of at most two
      requests, else the id with ".bin". */
  function ResolvedName(fileId: string, first: MetaResult, second: MetaResult): string {
    if first.MetaOk? then first.filename
    else if second.MetaOk? then second.filename
    else fileId + ".bin"
  }

  /** The second answer matters only after the first request failed, and
      the ".bin" fallback is used only when both failed. */
  lemma ResolvedNameCases(fileId: string, first: MetaResult, second: MetaResult, other: MetaResult)
    ensures first.MetaOk? ==>
              ResolvedName(fileId, first, second) == first.filename == ResolvedName(fileId, first, other)
    ensures first.MetaErr? && second.MetaOk? ==> ResolvedName(fileId, first, second) == second.filename
    ensures first.MetaErr? && second.MetaErr? ==> ResolvedName(fileId, first, second) == fileId + ".bin"
  {
  }

  /** The name the file is saved under. */
  function FinalName(fileId: string, first: MetaResult, second: MetaResult, isAlnum: char -> bool): (r: string)
    ensures ValidComponent(r)
  {
    var safe := SafeFileName(ResolvedName(fileId, first, second));
    CleanKeepsComponentValid(safe, isAlnum);
    CleanFileName(safe, isAlnum)
  }

  /** Whatever the metadata says, the file is saved directly inside the
      output directory, under its cleaned final name. */
  lemma SavedInsideOutputDir(outputDir: string, fileId: string, first: MetaResult, second: MetaResult,
                             isAlnum: char -> bool)
    ensures var name := FinalName(fileId, first, second, isAlnum);
            FileName(JoinPath(outputDir, name)) == Some(name)
  {
    JoinPathFileName(outputDir, FinalName(fileId, first, second, isAlnum));
  }

  /** The explanation written in place of content that could not be
      downloaded. */
  function PlaceholderText(fileId: string, error: string): string {
    PLACEHOLDER_HEAD + fileId + PLACEHOLDER_ERROR + error + PLACEHOLDER_TAIL
  }

  const PLACEHOLDER_HEAD: string := "Failed to download file from Claude's code execution.\n\nFile ID: "
  const PLACEHOLDER_ERROR: string := "\nError: "
  const PLACEHOLDER_TAIL: string :=
    "\n\nThis could be due to:\n- The file API not being available yet\n- The file having expired\n"
    + "- Authentication or permission issues\n\n"
    + "You can try using the Anthropic Files API directly with the file ID above.\n"

  /** The placeholder names the file id and the error. */
  lemma PlaceholderNamesIdAndError(fileId: string, error: string)
    ensures Contains(PlaceholderText(fileId, error), fileId)
    ensures Contains(PlaceholderText(fileId, error), error)
  {
    var head := PLACEHOLDER_HEAD;
    var mid := PLACEHOLDER_ERROR;
    var t := PlaceholderText(fileId, error);
    var i := |head|;
    assert t[i..i + |fileId|] == fileId;
    ContainsAt(t, fileId, i);
    var j := |head| + |fileId| + |mid|;
    assert t[j..j + |error|] == error;
    ContainsAt(t, error, j);
  }

  /** What is written to the file. */
  datatype FileBody = Content(bytes: seq<Byte>) | Placeholder(text: string)

  /** The metadata step of `download_and_save_file`: ask once, and once
      more after a failure; each success is reported to the interface. */
  method FetchFilename(fileId: string, first: MetaResult, second: MetaResult)
    returns (metadataRequests: nat, update: Option<(string, string)>, actualFilename: string)
    ensures metadataRequests == if first.MetaOk? then 1 else 2
    ensures actualFilename == ResolvedName(fileId, first, second)
    ensures update.Some? <==> first.MetaOk? || second.MetaOk?
    ensures update.Some? ==> update.value == (fileId, actualFilename)
    ensures update.None? ==> actualFilename == fileId + ".bin"
  {
    metadataRequests := 1;
    match first {
      case MetaOk(filename) =>
        update := Some((fileId, filename));
        actualFilename := filename;
      case MetaErr(_) =>
        metadataRequests := 2;
        match second {
          case MetaOk(filename) =>
            update := Some((fileId, filename));
            actualFilename := filename;
          case MetaErr(_) =>
            update := None;
            actualFilename := fileId + ".bin";
        }
    }
  }

  /** `download_and_save_file` with the answers of the network as
      parameters (`second` is consulted only after `first` fails). It
      reports how many metadata requests it made, the update it sends to
      the interface, and the path and body it writes. */
  method DownloadAndSaveFile(outputDir: string, fileId: string, first: MetaResult, second: MetaResult,
                             download: DownloadResult, isAlnum: char -> bool)
    returns (metadataRequests: nat, update: Option<(string, string)>, path: string, body: FileBody)
    ensures metadataRequests == if first.MetaOk? then 1 else 2
    ensures update.Some? <==> first.MetaOk? || second.MetaOk?
    ensures update.Some? ==> update.value == (fileId, ResolvedName(fileId, first, second))
    ensures update.None? ==> ResolvedName(fileId, first, second) == fileId + ".bin"
    ensures path == JoinPath(outputDir, FinalName(fileId, first, second, isAlnum))
    ensures download.Downloaded? ==> body == Content(download.content)
    ensures download.DownloadFailed? ==> body == Placeholder(PlaceholderText(fileId, download.error))
  {
    var actualFilename;
    metadataRequests, update, actualFilename := FetchFilename(fileId, first, second);
    var safeFilename := SafeFileName(actualFilename);
    var cleanedFilename := CleanFileName(safeFilename, isAlnum);
    path := JoinPath(outputDir, cleanedFilename);
    match download {
      case Downloaded(content) =>
        body := Content(content);
      case DownloadFailed(e) =>
        body := Placeholder(PlaceholderText(fileId, e));
    }
  }

  // ---------------------------------------------------------------------------
  // Which files are downloaded

  const FILE_ID_PREFIX: string := "file_"
  const DEFAULT_OUTPUT_DIR: string := "output"

  predicate ShouldDownload(fileId: string) {
    FILE_ID_PREFIX <= fileId
  }

  /** The ids of a CodeOutput's files. */
  function FileIds(files: seq<(string, string)>): (r: seq<string>)
    ensures |r| == |files| && forall k | 0 <= k < |files| :: r[k] == files[k].0
  {
    seq(|files|, k requires 0 <= k < |files| => files[k].0)
  }

  /** The downloads a CodeOutput's files start, in order: (directory, id)
      for each id that starts with "file_", into the given directory or
      "output". Every job is for one of the files. */
  function DownloadJobs(outputDir: Option<string>, files: seq<(string, string)>): (r: seq<(string, string)>)
    ensures |r| <= |files|
    ensures forall j | 0 <= j < |r| :: r[j].0 == outputDir.GetOr(DEFAULT_OUTPUT_DIR) && ShouldDownload(r[j].1)
    ensures forall j | 0 <= j < |r| :: r[j].1 in FileIds(files)
  {
    if files == [] then []
    else
      var head := if ShouldDownload(files[0].0) then [(outputDir.GetOr(DEFAULT_OUTPUT_DIR), files[0].0)] else [];
      var tail := DownloadJobs(outputDir, files[1..]);
      assert forall x | x in FileIds(files[1..]) :: x in FileIds(files) by {
        forall x | x in FileIds(files[1..]) ensures x in FileIds(files) {
          var k :| 0 <= k < |files[1..]| && FileIds(files[1..])[k] == x;
          assert FileIds(files)[k + 1] == x;
        }
      }
      assert FileIds(files)[0] == files[0].0;
      head + tail
  }

  /** Every file whose id starts with "file_" gets a download. */
  lemma {:induction false} DownloadJobsComplete(outputDir: Option<string>, files: seq<(string, string)>, k: nat)
    requires k < |files| && ShouldDownload(files[k].0)
    ensures (outputDir.GetOr(DEFAULT_OUTPUT_DIR), files[k].0) in DownloadJobs(outputDir, files)
    decreases k
  {
    if k > 0 {
      assert files[1..][k - 1] == files[k];
      DownloadJobsComplete(outputDir, files[1..], k - 1);
    }
  }

  /** Downloads are started in the order of the files. */
  lemma {:induction false} DownloadJobsAppend(outputDir: Option<string>, a: seq<(string, string)>, b: seq<(string, string)>)
    ensures DownloadJobs(outputDir, a + b) == DownloadJobs(outputDir, a) + DownloadJobs(outputDir, b)
    decreases |a|
  {
    if a == [] {
      assert a + b == b;
    } else {
      assert (a + b)[0] == a[0] && (a + b)[1..] == a[1..] + b;
      DownloadJobsAppend(outputDir, a[1..], b);
    }
  }
}
