/**
 * The file-system helpers (`utils/file_utils.py`): file-name sanitising, a
 * unique file name in a directory, and copy, delete and list over a model
 * of the file system.
 *
 * The file system is a value: the files with their contents, and the
 * directories. Whether an operating-system call that the checks let through
 * still fails is a parameter (`ioOk`).
 */
module FileUtils {
  import opened Wrappers
  import opened Strings
  import Paths

  // ---------------------------------------------------------------- sanitize_filename

  /** The characters `sanitize_filename` replaces with '_'. */
  const INVALID_CHARS: string := "<>:\"/\\|?*\0"

  /** A file name with no invalid character and no control character. */
  predicate Clean(s: string) {
    forall i :: 0 <= i < |s| ==> s[i] !in INVALID_CHARS && s[i] as int >= 32
  }

  /** Each invalid character replaced with '_'. */
  function ReplaceInvalid(s: string): (r: string)
    ensures |r| == |s|
    ensures forall i :: 0 <= i < |s| ==> r[i] == if s[i] in INVALID_CHARS then '_' else s[i]
  {
    seq(|s|, i requires 0 <= i < |s| => if s[i] in INVALID_CHARS then '_' else s[i])
  }

  /** No character of `s` is one `sanitize_filename` replaces. */
  predicate NoInvalid(s: string) {
    forall i :: 0 <= i < |s| ==> s[i] !in INVALID_CHARS
  }

  /** `''.join(c for c in s if ord(c) >= 32)`. */
  function DropControls(s: string): (r: string)
    ensures forall i :: 0 <= i < |r| ==> r[i] as int >= 32
    ensures NoInvalid(s) ==> NoInvalid(r)
    ensures (forall i :: 0 <= i < |s| ==> s[i] as int >= 32) ==> r == s
  {
    if |s| == 0 then ""
    else (if s[0] as int >= 32 then [s[0]] else []) + DropControls(s[1..])
  }

  /** What `sanitize_filename` returns. */
  function Sanitized(s: string): string {
    var t := DropControls(ReplaceInvalid(s));
    if Strip(t) == "" then "unnamed_file" else t
  }

  /** The fallback name is clean and not blank. */
  lemma UnnamedIsClean()
    ensures Clean("unnamed_file")
  {
  }

  lemma UnnamedIsStripped()
    ensures Strip("unnamed_file") == "unnamed_file"
  {
    StripOfStripped("unnamed_file");
  }

  /** A sanitised name is clean and not blank. */
  lemma SanitizedIsClean(s: string)
    ensures Clean(Sanitized(s)) && Strip(Sanitized(s)) != ""
  {
    var t := DropControls(ReplaceInvalid(s));
    assert NoInvalid(ReplaceInvalid(s));
    if Strip(t) == "" {
      UnnamedIsClean();
      UnnamedIsStripped();
    } else {
      assert Sanitized(s) == t;
    }
  }

  /** Sanitising twice gives what sanitising once gives. */
  lemma SanitizeIdempotent(s: string)
    ensures Sanitized(Sanitized(s)) == Sanitized(s)
  {
    SanitizedIsClean(s);
    SanitizedOfClean(Sanitized(s));
  }

  /** A clean name that is not blank is left as it is. */
  lemma SanitizedOfClean(r: string)
    requires Clean(r) && Strip(r) != ""
    ensures Sanitized(r) == r
  {
    assert ReplaceInvalid(r) == r;
    assert forall i :: 0 <= i < |r| ==> r[i] as int >= 32;
    var t := DropControls(r);
    assert t == r;
  }

  /** `sanitize_filename`. */
  method SanitizeFilename(name: string) returns (r: string)
    ensures r == Sanitized(name)
  {
    r := name;
    var i := 0;
    while i < |INVALID_CHARS|
      invariant 0 <= i <= |INVALID_CHARS|
      invariant |r| == |name|
      invariant forall k :: 0 <= k < |name| ==> r[k] == if name[k] in INVALID_CHARS[..i] then '_' else name[k]
    {
      r := ReplaceChar(r, INVALID_CHARS[i], '_');
      i := i + 1;
    }
    assert INVALID_CHARS[..i] == INVALID_CHARS;
    assert r == ReplaceInvalid(name);
    r := DropControls(r);
    if Strip(r) == "" {
      r := "unnamed_file";
    }
  }

  // ---------------------------------------------------------------- get_unique_filename

  /** The name tried at `counter`: `base.ext` first, then `base_2.ext`, `base_3.ext`, … */
  function Candidate(base: string, ext: string, counter: nat): (r: string)
    requires counter >= 1
    ensures counter == 1 ==> r == base + "." + ext
    ensures counter > 1 ==> r == base + "_" + NatToString(counter) + "." + ext
  {
    if counter == 1 then base + "." + ext else base + "_" + NatToString(counter) + "." + ext
  }

  /** A number of at least 10^n has more than n digits. */
  lemma {:induction false} ManyDigits(k: nat, n: nat)
    requires k >= Pow10(n)
    ensures |NatToString(k)| > n
  {
    if n > 0 {
      assert k >= 10;
      ManyDigits(k / 10, n - 1);
      assert NatToString(k) == NatToString(k / 10) + [DigitChar(k % 10)];
    }
  }

  /** The length of the longest string in `s`. */
  ghost function MaxLen(s: set<string>): (r: nat)
    ensures forall x :: x in s ==> |x| <= r
  {
    if s == {} then 0
    else
      var x :| x in s;
      var m := MaxLen(s - {x});
      if |x| > m then |x| else m
  }

  /** A candidate whose number has more digits than any existing path is long enough to be new. */
  lemma LongCandidateIsNew(directory: string, base: string, ext: string, counter: nat, existing: set<string>)
    requires counter >= 1 && counter >= Pow10(MaxLen(existing))
    ensures Paths.PathJoin(directory, Candidate(base, ext, counter)) !in existing
  {
    var c := Candidate(base, ext, counter);
    var p := Paths.PathJoin(directory, c);
    ManyDigits(counter, MaxLen(existing));
    assert |p| >= |c|;
    if counter == 1 {
      assert |c| >= 1;
    }
  }

  /** Every candidate before the `n`-th names an existing path. */
  ghost predicate AllTakenBefore(directory: string, base: string, ext: string, n: nat, existing: set<string>) {
    forall k :: 1 <= k < n ==> Paths.PathJoin(directory, Candidate(base, ext, k)) in existing
  }

  lemma TakenExtends(directory: string, base: string, ext: string, n: nat, existing: set<string>)
    requires n >= 1 && AllTakenBefore(directory, base, ext, n, existing)
    requires Paths.PathJoin(directory, Candidate(base, ext, n)) in existing
    ensures AllTakenBefore(directory, base, ext, n + 1, existing)
  {
    forall k | 1 <= k < n + 1
      ensures Paths.PathJoin(directory, Candidate(base, ext, k)) in existing
    {
      if k == n {
      } else {
        assert k < n;
      }
    }
  }

  /**
   * `get_unique_filename`: the base sanitised and the extension stripped of
   * leading dots, the first candidate whose path does not exist.
   */
  method GetUniqueFilename(directory: string, baseName: string, ext: string, existing: set<string>) returns (path: string)
    ensures path !in existing
    ensures exists n :: (n >= 1
      && path == Paths.PathJoin(directory, Candidate(Sanitized(baseName), LStripChars(ext, {'.'}), n))
      && AllTakenBefore(directory, Sanitized(baseName), LStripChars(ext, {'.'}), n, existing))
  {
    var base := SanitizeFilename(baseName);
    var e := LStripChars(ext, {'.'});
    ghost var bound := Pow10(MaxLen(existing));
    var counter := 1;
    while true
      invariant 1 <= counter <= bound
      invariant AllTakenBefore(directory, base, e, counter, existing)
      decreases bound - counter
    {
      var filepath := Paths.PathJoin(directory, Candidate(base, e, counter));
      if filepath !in existing {
        return filepath;
      }
      if counter >= bound {
        LongCandidateIsNew(directory, base, e, counter, existing);
        assert false;
      }
      TakenExtends(directory, base, e, counter, existing);
      counter := counter + 1;
    }
  }

  // ---------------------------------------------------------------- copy, delete, list

  /** The files with their contents, and the directories. */
  datatype FileSystem = FileSystem(files: map<string, string>, dirs: set<string>)

  predicate Exists(fs: FileSystem, p: string) {
    p in fs.files || p in fs.dirs
  }

  /** Where `shutil.copy2` writes: into a directory under the source's base name, or the path itself. */
  function CopyTarget(fs: FileSystem, src: string, dst: string): string {
    if dst in fs.dirs then Paths.PathJoin(dst, Paths.BaseName(src)) else dst
  }

  /**
   * `copy_file`: False for a missing source, and for an existing destination
   * without `overwrite`; otherwise the copy, which fails on a directory
   * source, a target that is the source itself or a directory, or an I/O error.
   */
  function CopyFile(fs: FileSystem, src: string, dst: string, overwrite: bool, ioOk: bool): (r: (bool, FileSystem))
    ensures !Exists(fs, src) ==> !r.0
    ensures Exists(fs, dst) && !overwrite ==> !r.0
    ensures r.0 <==> src in fs.files && src !in fs.dirs && (!Exists(fs, dst) || overwrite)
                     && CopyTarget(fs, src, dst) != src && CopyTarget(fs, src, dst) !in fs.dirs && ioOk
    ensures r.0 ==> r.1.files == fs.files[CopyTarget(fs, src, dst) := fs.files[src]] && r.1.dirs == fs.dirs
    ensures !r.0 ==> r.1 == fs
  {
    if !Exists(fs, src) then (false, fs)
    else if Exists(fs, dst) && !overwrite then (false, fs)
    else
      var target := CopyTarget(fs, src, dst);
      if src in fs.dirs || target == src || target in fs.dirs || !ioOk then (false, fs)
      else (true, fs.(files := fs.files[target := fs.files[src]]))
  }

  /** A copy without `overwrite` never replaces an existing file. */
  lemma CopyKeepsExisting(fs: FileSystem, src: string, dst: string, ioOk: bool, p: string)
    requires p in fs.files
    ensures CopyFile(fs, src, dst, false, ioOk).1.files[p] == fs.files[p]
  {
  }

  /**
   * `delete_file`: True when the path does not exist; a directory cannot be
   * unlinked, so that fails; a file is removed unless the unlink fails.
   */
  function DeleteFile(fs: FileSystem, p: string, ioOk: bool): (r: (bool, FileSystem))
    ensures !Exists(fs, p) ==> r == (true, fs)
    ensures r.0 <==> p !in fs.dirs && (p in fs.files ==> ioOk)
    ensures r.0 ==> p !in r.1.files && r.1.dirs == fs.dirs
    ensures r.1.files == fs.files - {p} || r.1 == fs
  {
    if !Exists(fs, p) then (true, fs)
    else if p in fs.dirs || !ioOk then (false, fs)
    else (true, fs.(files := fs.files - {p}))
  }

  /** Deleting again after a successful delete succeeds and changes nothing. */
  lemma DeleteTwice(fs: FileSystem, p: string, ioOk: bool, ioOk2: bool)
    requires DeleteFile(fs, p, ioOk).0
    ensures DeleteFile(DeleteFile(fs, p, ioOk).1, p, ioOk2) == (true, DeleteFile(fs, p, ioOk).1)
  {
  }

  /** `ext.lower().lstrip('.')`. */
  function NormalizeExt(e: string): string {
    LStripChars(Lower(e), {'.'})
  }

  /** `Path(f).suffix`: from the last dot of the final component, unless that dot is first or last. */
  function Suffix(f: string): (r: string)
    ensures r == "" || (r[0] == '.' && '.' !in r[1..] && |r| >= 2)
  {
    var name := Paths.BaseName(f);
    var i := RFind(name, '.');
    if 0 < i < |name| - 1 then name[i..] else ""
  }

  /** `f.suffix.lstrip('.').lower()`. */
  function SuffixExt(f: string): string {
    Lower(LStripChars(Suffix(f), {'.'}))
  }

  /** Whether the file passes `list_files`'s extension filter. */
  predicate Matches(f: string, extensions: Option<seq<string>>) {
    extensions.None? || exists i :: 0 <= i < |extensions.value| && NormalizeExt(extensions.value[i]) == SuffixExt(f)
  }

  /**
   * `list_files`: [] unless the directory exists; otherwise its entries, in
   * the order `iterdir` yields them (`entries`), that are files and pass the filter.
   */
  function ListFiles(fs: FileSystem, directory: string, entries: seq<string>, extensions: Option<seq<string>>): (r: seq<string>)
    ensures directory !in fs.dirs ==> r == []
    ensures directory in fs.dirs ==> forall f :: f in r <==> f in entries && f in fs.files && Matches(f, extensions)
    ensures |r| <= |entries|
  {
    if directory !in fs.dirs then []
    else Filtered(fs, entries, extensions)
  }

  function Filtered(fs: FileSystem, entries: seq<string>, extensions: Option<seq<string>>): (r: seq<string>)
    ensures forall f :: f in r <==> f in entries && f in fs.files && Matches(f, extensions)
    ensures |r| <= |entries|
  {
    if |entries| == 0 then []
    else
      var f := entries[0];
      (if f in fs.files && Matches(f, extensions) then [f] else []) + Filtered(fs, entries[1..], extensions)
  }

  /** Upper case and leading dots in a requested extension make no difference. */
  lemma NormalizeExtForms(e: string)
    ensures NormalizeExt("." + e) == NormalizeExt(e)
    ensures NormalizeExt(Lower(e)) == NormalizeExt(e)
  {
    assert Lower("." + e) == "." + Lower(e);
    assert ("." + Lower(e))[1..] == Lower(e);
    LowerIdempotent(e);
  }

  /** Lowering neither makes nor unmakes a dot, so it commutes with `lstrip('.')`. */
  lemma {:induction false} LowerLStripDots(s: string)
    ensures LStripChars(Lower(s), {'.'}) == Lower(LStripChars(s, {'.'}))
  {
    if |s| > 0 {
      assert Lower(s)[1..] == Lower(s[1..]);
      if s[0] == '.' {
        LowerLStripDots(s[1..]);
      }
    }
  }

  /** A file's extension and a requested one are normalised alike. */
  lemma SuffixExtIsNormalized(f: string)
    ensures NormalizeExt(Suffix(f)) == SuffixExt(f)
  {
    LowerLStripDots(Suffix(f));
  }
}
