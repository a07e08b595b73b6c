/** The path and text helpers of `lib/machine/utils.py`.

    The operating system is abstract: path normalisation, the directory test
    and the filesystem are parameters, and the alternate filesystem root
    (`CUSTOM_ROOT_PATH`, read once from the environment) is passed in. */
module MachineUtils {
  import opened Wrappers
  import opened PyStr

  /** The environment variable naming the alternate root. */
  const RootVariable: String := "STATUS_CUSTOM_ROOT_PATH"

  /** `os.path.isabs` on a POSIX system. */
  predicate IsAbs(p: String) {
    |p| > 0 && p[0] == '/'
  }

  /** `_validate_custom_root_path`: the normalised path when it is absolute
      and names a directory, otherwise the empty string ("no override"). */
  function ValidateCustomRootPath(path: String, normpath: String -> String, isdir: String -> bool): (r: String)
    ensures r == [] <==> path == [] || !IsAbs(normpath(path)) || !isdir(normpath(path))
    ensures r != [] ==> r == normpath(path) && IsAbs(r) && isdir(r)
  {
    if path == [] then []
    else
      var normalized := normpath(path);
      if !IsAbs(normalized) then []
      else if !isdir(normalized) then []
      else normalized
  }

  /** `CUSTOM_ROOT_PATH` as computed at import time from the environment. */
  function CustomRootPath(env: map<String, String>, normpath: String -> String, isdir: String -> bool): (root: String)
    ensures root == [] || (IsAbs(root) && isdir(root))
    ensures RootVariable !in env ==> root == []
    ensures RootVariable in env ==> root == ValidateCustomRootPath(env[RootVariable], normpath, isdir)
  {
    if RootVariable in env then ValidateCustomRootPath(env[RootVariable], normpath, isdir) else []
  }

  /** The conditional rebinding of `path` that `get`, `ls` and `ls_glob`
      share: the path under the alternate root when a root is set and that
      path exists, the logical path otherwise. */
  function ResolvePath(root: String, path: String, pathExists: String -> bool): (r: String)
    ensures root == [] ==> r == path
    ensures root != [] ==> (r == root + path <==> pathExists(root + path))
    ensures r == path || r == root + path
  {
    if root != [] && pathExists(root + path) then root + path else path
  }

  /** An invalid or absent override behaves as no override at all. */
  lemma InvalidRootIsIgnored(raw: String, normpath: String -> String, isdir: String -> bool,
                             path: String, pathExists: String -> bool)
    requires raw == [] || !IsAbs(normpath(raw)) || !isdir(normpath(raw))
    ensures ResolvePath(ValidateCustomRootPath(raw, normpath, isdir), path, pathExists) == path
  {
  }

  /** What `open(path).read()` does with a path. */
  datatype ReadOutcome =
    | Contents(text: String)
    | FileNotFound    // FileNotFoundError
    | NotDecodable    // UnicodeDecodeError, a ValueError
    | OtherOsError    // IsADirectoryError, PermissionError, ...

  /** What `os.listdir(path)` does with a path. */
  datatype ListOutcome =
    | Entries(names: seq<String>)
    | DirNotFound        // FileNotFoundError
    | NotADirectory      // NotADirectoryError
    | PermissionDenied   // PermissionError
    | ListOsError        // any other OSError

  /** The filesystem as the helpers see it. */
  datatype FileSystem = FileSystem(
    pathExists: String -> bool,          // os.path.exists
    read: String -> ReadOutcome,     // open(path, "r").read()
    listDir: String -> ListOutcome,  // os.listdir
    glob: String -> seq<String>)     // glob.glob

  /** The values `get` hands back: its `fallback` (by default `None`), the
      file's text, or that text read as an integer. */
  datatype Value = NoneValue | Text(text: String) | Int(n: int)

  /** `get(path, isint, fallback)`: the right-stripped content of the
      resolved file (as an integer when `isint`), or `fallback` when the file
      is missing, cannot be decoded, or is not an integer though `isint` is
      set. `parseInt` stands for Python's `int()` on a string. Other I/O
      errors escape. */
  function Get(fs: FileSystem, root: String, path: String, isint: bool, fallback: Value,
               parseInt: String -> Option<int>): (r: Outcome<Value>)
    ensures var read := fs.read(ResolvePath(root, path, fs.pathExists));
      && (read.FileNotFound? || read.NotDecodable? ==> r == Returned(fallback))
      && (r.Raised? <==> read.OtherOsError?)
      && (read.Contents? && !isint ==> r == Returned(Text(RStrip(read.text))))
      && (read.Contents? && isint ==>
            r == Returned(match parseInt(RStrip(read.text))
                          case Some(n) => Int(n)
                          case None => fallback))
  {
    var resolved := ResolvePath(root, path, fs.pathExists);
    match fs.read(resolved)
    case FileNotFound => Returned(fallback)
    case NotDecodable => Returned(fallback)
    case OtherOsError => Raised
    case Contents(text) =>
      var val := RStrip(text);
      if !isint then Returned(Text(val))
      else match parseInt(val)
        case Some(n) => Returned(Int(n))
        case None => Returned(fallback)
  }

  /** `get` reads the shadow copy under the root whenever it exists, and the
      logical path otherwise; with no root the shadow copy is the path
      itself. */
  lemma GetPrefersShadowCopy(fs: FileSystem, root: String, path: String, isint: bool, fallback: Value,
                             parseInt: String -> Option<int>)
    ensures var from := if fs.pathExists(root + path) then root + path else path;
            Get(fs, root, path, isint, fallback, parseInt)
              == Get(fs, [], from, isint, fallback, parseInt)
  {
    if root == [] {
      assert root + path == path;
    }
  }

  /** The index of the first line that contains `keyword`. */
  function FirstMatch(lines: seq<String>, keyword: String): (r: Option<nat>)
    ensures r.None? <==> forall i :: 0 <= i < |lines| ==> !Contains(lines[i], keyword)
    ensures r.Some? ==> r.value < |lines| && Contains(lines[r.value], keyword)
                        && forall j :: 0 <= j < r.value ==> !Contains(lines[j], keyword)
  {
    if lines == [] then None
    else if Contains(lines[0], keyword) then Some(0)
    else match FirstMatch(lines[1..], keyword)
      case None => None
      case Some(i) => Some(i + 1)
  }

  /** `grep(contents, keyword)`: the digits of the first line holding the
      keyword, or `None` when no line holds it. */
  function Grep(contents: String, keyword: String): (r: Option<String>)
    ensures var lines := Split(contents, '\n');
      && (r.None? <==> forall i :: 0 <= i < |lines| ==> !Contains(lines[i], keyword))
      && (r.Some? ==> AllDigits(r.value)
                      && exists i :: 0 <= i < |lines| && Contains(lines[i], keyword)
                                     && (forall j :: 0 <= j < i ==> !Contains(lines[j], keyword))
                                     && r.value == Digits(lines[i]))
  {
    var lines := Split(contents, '\n');
    match FirstMatch(lines, keyword)
    case None => None
    case Some(i) =>
      assert Contains(lines[i], keyword);
      assert forall j :: 0 <= j < i ==> !Contains(lines[j], keyword);
      Some(Digits(lines[i]))
  }

  /** Once a line holds the keyword, nothing after it matters. */
  lemma GrepStopsAtFirstMatch(first: String, rest: String, keyword: String)
    requires '\n' !in first && Contains(first, keyword)
    ensures Grep(first + "\n" + rest, keyword) == Some(Digits(first))
  {
    SplitAtFirstSep(first, '\n', rest);
  }

  /** A CPU sensor line as the kernel reports it. */
  lemma GrepSensorLine()
    ensures Grep("Tctl: +45.0\U{00B0}C", "Tctl") == Some("450")
  {
    var line := "Tctl: +45.0\U{00B0}C";
    assert "Tctl" <= line;
    assert Contains(line, "Tctl");
    assert forall i :: 0 <= i < |line| ==> line[i] != '\n';
    SplitWithoutSep(line, '\n');
    assert FirstMatch([line], "Tctl") == Some(0);
    SensorLineDigits();
  }

  lemma SensorLineDigits()
    ensures Digits("Tctl: +45.0\U{00B0}C") == "450"
  {
    var line := "Tctl: +45.0\U{00B0}C";
    assert Digits(line[12..]) == [];
    assert Digits(line[11..]) == [];
    assert Digits(line[10..]) == "0";
    assert Digits(line[9..]) == "0";
    assert Digits(line[8..]) == "50";
    assert Digits(line[7..]) == "450";
    assert Digits(line[6..]) == "450";
    assert Digits(line[5..]) == "450";
    assert Digits(line[4..]) == "450";
    assert Digits(line[3..]) == "450";
    assert Digits(line[2..]) == "450";
    assert Digits(line[1..]) == "450";
  }

  /** `basename(path)`: the text after the last `/`, i.e. the longest
      suffix without a `/`. */
  function Basename(path: String): (r: String)
    ensures '/' !in r
    ensures |r| <= |path| && r == path[|path| - |r|..]
    ensures |r| < |path| ==> path[|path| - |r| - 1] == '/'
    ensures '/' !in path ==> r == path
  {
    var parts := Split(path, '/');
    LastPieceIsTail(path, '/');
    assert |parts[|parts| - 1]| < |path| ==> path[|path| - |parts[|parts| - 1]| - 1] in path;
    parts[|parts| - 1]
  }

  /** `10` to the power `k`. */
  function Pow10(k: nat): (p: nat)
    ensures p >= 1
  {
    if k == 0 then 1 else 10 * Pow10(k - 1)
  }

  /** Powers of ten grow with the exponent. */
  lemma {:induction false} Pow10Grows(a: nat, b: nat)
    requires a <= b
    ensures Pow10(a) <= Pow10(b)
  {
    if a < b {
      Pow10Grows(a, b - 1);
    }
  }

  /** The number of characters of `str(n)`: the count of decimal digits of
      `|n|` (the least `d` with `|n| < 10^d`, at least one), plus one for the
      minus sign of a negative `n`. */
  function NumeralLength(n: int): (len: nat)
    ensures len >= 1
    ensures n >= 0 ==> n < Pow10(len) && (len == 1 || Pow10(len - 1) <= n)
    ensures n < 0 ==> len >= 2 && -n < Pow10(len - 1) && (len == 2 || Pow10(len - 2) <= -n)
    decreases if n < 0 then 1 - n else n
  {
    if n < 0 then 1 + NumeralLength(-n)
    else if n < 10 then 1
    else
      var rest := NumeralLength(n / 10);
      assert n < 10 * (n / 10) + 10;
      assert Pow10(rest + 1) == 10 * Pow10(rest);
      1 + rest
  }

  /** `str(n)` has four characters or more exactly when `n >= 1000`, or
      `n <= -100` (the minus sign counts). */
  lemma FourCharacterNumerals(n: int)
    ensures NumeralLength(n) >= 4 <==> n >= 1000 || n <= -100
  {
    var len := NumeralLength(n);
    assert Pow10(1) == 10 && Pow10(2) == 100 && Pow10(3) == 1000;
    if n >= 0 {
      if len >= 4 {
        Pow10Grows(3, len - 1);
      } else {
        Pow10Grows(len, 3);
      }
    } else {
      if len >= 4 {
        Pow10Grows(2, len - 2);
      } else {
        Pow10Grows(len - 1, 2);
      }
    }
  }

  /** `temp_val(raw)`: a raw sensor value in thousandths of a degree is
      divided by 1000 when its numeral has four characters or more. */
  function TempVal(raw: int): (r: real)
    ensures (raw >= 1000 || raw <= -100) ==> r == raw as real / 1000.0
    ensures -100 < raw < 1000 ==> r == raw as real
  {
    FourCharacterNumerals(raw);
    if NumeralLength(raw) >= 4 then raw as real / 1000.0 else raw as real
  }

  lemma TempValExamples()
    ensures TempVal(45000) == 45.0
    ensures TempVal(45) == 45.0
  {
  }

  /** `os.path.join(a, b)` with two components. */
  function PathJoin(a: String, b: String): (r: String)
    ensures IsAbs(b) || a == [] ==> r == b
    ensures !IsAbs(b) && a != [] ==>
              && |r| == (if a[|a| - 1] == '/' then |a| + |b| else |a| + |b| + 1)
              && a <= r && r[|r| - |b|..] == b && r[|r| - |b| - 1] == '/'
  {
    if IsAbs(b) then b
    else if a == [] || a[|a| - 1] == '/' then a + b
    else a + "/" + b
  }

  /** Every entry name joined onto a directory path. */
  function JoinAll(dir: String, names: seq<String>): (paths: seq<String>)
    ensures |paths| == |names|
    ensures forall i :: 0 <= i < |names| ==> paths[i] == PathJoin(dir, names[i])
  {
    seq(|names|, i requires 0 <= i < |names| => PathJoin(dir, names[i]))
  }

  /** `ls(path)`: the sorted paths of the resolved directory's entries, or
      an empty list when the directory is missing, is not a directory or
      cannot be read; other I/O errors escape. */
  function Ls(fs: FileSystem, root: String, path: String): (r: Outcome<seq<String>>)
    ensures var dir := ResolvePath(root, path, fs.pathExists);
      match fs.listDir(dir)
      case Entries(names) =>
        r.Returned? && Sorted(r.value) && multiset(r.value) == multiset(JoinAll(dir, names))
      case ListOsError => r.Raised?
      case _ => r == Returned([])
  {
    var dir := ResolvePath(root, path, fs.pathExists);
    match fs.listDir(dir)
    case Entries(names) => Returned(Sort(JoinAll(dir, names)))
    case DirNotFound => Returned([])
    case NotADirectory => Returned([])
    case PermissionDenied => Returned([])
    case ListOsError => Raised
  }

  /** `ls_glob(path, target)`: the sorted matches of `target` under the
      resolved directory. */
  function LsGlob(fs: FileSystem, root: String, path: String, target: String): (r: seq<String>)
    ensures Sorted(r)
    ensures multiset(r) == multiset(fs.glob(PathJoin(ResolvePath(root, path, fs.pathExists), target)))
  {
    Sort(fs.glob(PathJoin(ResolvePath(root, path, fs.pathExists), target)))
  }
}
