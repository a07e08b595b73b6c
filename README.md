# Status machine collectors: Docker records and path helpers

A Dafny model of two pieces of the `lib/machine` package of the Status
telemetry collector.

- **The Docker record pipeline** (`lib/machine/docker.py`, module `Docker`
  in `docker.dfy`). `get_containers` and `get_stats` strip and split the
  standard output of `docker ps -a` and `docker stats --no-stream` into lines.
  They skip empty lines and lines that do not decode as JSON, and turn each
  remaining object into a fixed-shape record with per-key defaults.
  `get_info` builds a name-to-stats lookup and copies five usage figures onto
  every container with the same name. It then counts running and stopped
  containers. It answers `None` when Docker is disabled in the configuration
  or the `docker info` probe fails. The two parsing loops share one method,
  `ParseLines`, and the merge loop is the method `MergeStats`. Each is proved
  against a specification function: `ListedContainers`, `ParsedStats`,
  `Merged` and `Info`.
- **The string and path helpers** (`lib/machine/utils.py`, module
  `MachineUtils` in `utils.dfy`). They cover:
  - validating the custom root named by `STATUS_CUSTOM_ROOT_PATH`;
  - the shadow-root resolution that `get`, `ls` and `ls_glob` repeat;
  - the fallbacks of `get` and `ls` over a filesystem;
  - `grep`, `basename`, `temp_val` and `os.path.join`.

  This file is pure, so everything in it is a function.

`pystr.dfy` (module `PyStr`) defines the Python string built-ins the two files
rely on:
- `str.strip` and `str.rstrip`, with Python's notion of whitespace;
- `str.split` on one character, and `str.join`;
- the substring test `in`;
- the digit filter `re.sub(r'[^0-9]', '', …)`;
- `sorted` on strings, in code-point order.

Their defining properties are proved there: split/join round trips, strip as
the trimmed slice, and sorting as the unique sorted permutation.
`wrappers.dfy` holds `Option` (Python's `None`) and `Outcome`, which tells a
returned value apart from an exception that escapes the function.

The outside world enters only as parameters:
- the JSON decoder is a partial function from a line to a string-keyed object;
- a Docker CLI run is either `Exited(code, stdout)` or `Failed` (timeout or
  missing binary);
- the configuration flag is a boolean;
- the filesystem is a `FileSystem` value of abstract functions:
  - `pathExists`;
  - `read`, whose outcomes are contents, file not found, undecodable text and
    any other OS error;
  - `listDir`, whose outcomes are entries, not found, not a directory,
    permission denied and any other OS error;
  - `glob`;
- `normpath`, `isdir` and `int()` are abstract functions;
- the environment is a map.

## Model

| member | source | states |
|---|---|---|
| MachineUtils.ValidateCustomRootPath | lib/machine/utils.py:6-18 | the result is empty exactly when the input is empty, its normalisation is not absolute, or that is not a directory; otherwise it is the normalised path, absolute and a directory |
| MachineUtils.CustomRootPath | lib/machine/utils.py:21-24 | the root is empty when the variable is unset; in every case it is empty or an absolute existing directory |
| MachineUtils.ResolvePath | lib/machine/utils.py:28-32 | an empty root leaves the path unchanged; with a root, the result is root+path exactly when that exists, otherwise the original path |
| MachineUtils.InvalidRootIsIgnored | lib/machine/utils.py:6-32 | a rejected root value resolves every path to itself |
| MachineUtils.Get | lib/machine/utils.py:27-38 | fallback on a missing file, undecodable text, or unparsable content when `isint`; an escaping exception on any other read error; otherwise the right-stripped contents, parsed to an int when `isint` |
| MachineUtils.GetPrefersShadowCopy | lib/machine/utils.py:28-34 | for every root, `get` reads the shadow copy root+path when it exists and the original path otherwise |
| MachineUtils.FirstMatch | lib/machine/utils.py:42-43 | the index of the first line containing the keyword, or none when no line does |
| MachineUtils.Grep | lib/machine/utils.py:41-44 | `None` exactly when no line contains the keyword; otherwise only digits, the digits of the first matching line in order |
| MachineUtils.GrepStopsAtFirstMatch | lib/machine/utils.py:42-44 | lines after the first match do not affect the result |
| MachineUtils.GrepSensorLine | lib/machine/utils.py:41-44 | `grep("Tctl: +45.0°C", "Tctl")` is `"450"` |
| MachineUtils.Basename | lib/machine/utils.py:75-76 | the result has no `/`, is a suffix of the path preceded by `/` unless it is the whole path, and is the whole path when there is no `/` |
| MachineUtils.NumeralLength | lib/machine/utils.py:48 | `len(str(n))`: for n >= 0 the number of decimal digits (n < 10^len, and 10^(len-1) <= n unless len is 1); for n < 0 one more than the digits of -n, for the minus sign |
| MachineUtils.FourCharacterNumerals | lib/machine/utils.py:48 | `len(str(n)) >= 4` exactly when n >= 1000 or n <= -100 |
| MachineUtils.TempVal | lib/machine/utils.py:47-51 | values with a four-character numeral are divided by 1000, the others are kept |
| MachineUtils.TempValExamples | lib/machine/utils.py:47-51 | 45000 millidegrees read 45, and 45 degrees stay 45 |
| MachineUtils.PathJoin | lib/machine/utils.py:60 | an absolute second part or an empty first part replaces the result; otherwise first part, one `/` unless already there, then second part |
| MachineUtils.JoinAll | lib/machine/utils.py:60 | one joined path per entry, in entry order |
| MachineUtils.Ls | lib/machine/utils.py:54-63 | the sorted permutation of the resolved directory joined with each entry; `[]` on not found, not a directory or permission denied; other OS errors escape |
| MachineUtils.LsGlob | lib/machine/utils.py:66-72 | the sorted permutation of the glob matches of the resolved directory joined with the pattern |
| PyStr.LStrip | lib/machine/docker.py:36 | the result is a suffix, every dropped character is whitespace, and the result does not start with whitespace |
| PyStr.RStrip | lib/machine/utils.py:34 | the result is a prefix, every dropped character is whitespace, and the result does not end with whitespace |
| PyStr.StripIsTrimmedSlice | lib/machine/docker.py:36 | `Strip`, Python's `strip()`, is the slice left after removing all leading and trailing whitespace, and neither of its ends is whitespace |
| PyStr.Split | lib/machine/utils.py:42 | at least one piece, and no piece contains the separator |
| PyStr.JoinSplit | lib/machine/utils.py:42 | joining the pieces with the separator gives back the text |
| PyStr.SplitJoin | lib/machine/docker.py:36 | splitting a join of separator-free pieces gives back those pieces |
| PyStr.LastPieceIsTail | lib/machine/utils.py:76 | the last piece of a split is a suffix with no separator, preceded by a separator unless it is the whole text |
| PyStr.ContainsAt | lib/machine/utils.py:43 | `Contains`, Python's `keyword in line`, holds exactly when the keyword occurs at some position of the line |
| PyStr.Digits | lib/machine/utils.py:44 | the result holds only digits and is no longer than the input |
| PyStr.DigitsCounts | lib/machine/utils.py:44 | every digit is kept as often as it occurs and every other character is dropped; with `DigitsAppend` this fixes the result on every text |
| PyStr.DigitsAppend | lib/machine/utils.py:44 | filtering a concatenation is concatenating the filtered parts |
| PyStr.DigitsKeepsDigits | lib/machine/utils.py:44 | the filter is the identity exactly on all-digit text |
| PyStr.Sort | lib/machine/utils.py:61 | the result is sorted and a permutation of the input |
| PyStr.SortedPermutationUnique | lib/machine/utils.py:61 | two sorted permutations of the same list are equal, so `sorted` is determined by its contract |
| Docker.DecodeLine | lib/machine/docker.py:37-51 | a line yields one object exactly when it is non-empty and decodes, and then that object |
| Docker.DecodeLines | lib/machine/docker.py:36-51 | at most one object per line |
| Docker.DecodeLinesAppend | lib/machine/docker.py:36-51 | lines are parsed independently and in order: the parse of a concatenation is the concatenation of the parses |
| Docker.SkipsBadLine | lib/machine/docker.py:37-38 | an empty or undecodable line contributes nothing and leaves the lines around it as they are |
| Docker.DecodeLinesAllGood | lib/machine/docker.py:36-51 | when every line decodes, the output has one object per line, at the line's position |
| Docker.ContainerDefaults | lib/machine/docker.py:41-49 | each listing field is its JSON key's value, or `""` when the key is missing |
| Docker.StatDefaults | lib/machine/docker.py:75-83 | `StatOf`, the record `get_stats` builds: each stats field is its JSON key's value, or `""` when missing, except CPU and memory percentage, which default to `"0%"` |
| Docker.ContainerOf | lib/machine/docker.py:41-49 | a freshly listed container carries no usage figures |
| Docker.ListedContainers | lib/machine/docker.py:32-33 | a failed or non-zero run lists no containers, and no listed container carries usage figures |
| Docker.ParsedStats | lib/machine/docker.py:66-67 | a failed or non-zero run yields no stats |
| Docker.ParseLines | lib/machine/docker.py:35-52 | the loop appends exactly one record per non-empty decodable line, in line order |
| Docker.GetContainers | lib/machine/docker.py:23-54 | `get_containers()` is the records of the decodable lines of `docker ps -a` |
| Docker.GetStats | lib/machine/docker.py:57-88 | `get_stats()` is the records of the decodable lines of `docker stats` |
| Docker.LastWithName | lib/machine/docker.py:101 | the position of the last stats record carrying a name, or none exactly when no record carries it |
| Docker.LookupKeepsLast | lib/machine/docker.py:101 | a name is in `StatsByName`, the lookup, exactly when some record carries it, and then maps to the last such record |
| Docker.Enrich | lib/machine/docker.py:105-111 | the listing fields are unchanged; the usage figures come from the lookup exactly when the name is in it, and otherwise nothing changes |
| Docker.Merged | lib/machine/docker.py:104-111 | same length; each container enriched at its own position |
| Docker.MergeStats | lib/machine/docker.py:104-111 | the in-place loop leaves the list equal to the merged list |
| Docker.CountRunning | lib/machine/docker.py:113 | at most the number of containers |
| Docker.RunningAndStoppedPartition | lib/machine/docker.py:113-114 | running plus not running equals the number of containers |
| Docker.CountRunningByStates | lib/machine/docker.py:104-113 | containers with the same states have the same running count, so the merge does not change it |
| Docker.GetInfo | lib/machine/docker.py:90-122 | equal to `Info`; `None` exactly when Docker is disabled or the probe fails (`IsAvailable`: `docker info` ran and exited with 0, docker.py:10-20); otherwise a summary with running + stopped == total == number of containers |
| Docker.InfoCounts | lib/machine/docker.py:113-120 | in the summary `Info` returns, running counts the listed containers whose state is exactly `running`, stopped counts all others, and they add up to total |
| Docker.InfoKeepsListing | lib/machine/docker.py:104-111 | the summary `Info` returns lists as many containers as the listing, each with its listing fields unchanged, in the same order |
| Docker.InfoEnrichment | lib/machine/docker.py:101-111 | in the summary `Info` returns, a container carries usage figures exactly when some stats record has its name, and they are those of the last such record |
| Docker.MergeExample | lib/machine/docker.py:101-120 | a running container with stats and an exited one without: one running, one stopped, only the first enriched |

## Left out

- Running the Docker CLI (`subprocess.run`, its timeouts and `OSError`s) is an input value `CliRun`. The `docker info` probe is reduced to "exited with code 0".
- JSON decoding is an abstract partial decoder to string-valued objects. A line that decodes to a non-object value makes the code raise `AttributeError`, which escapes `get_containers`; this is not modelled. Non-string JSON values are not modelled either.
- `config.get("docker", "enabled")` is a boolean parameter.
- Filesystem calls (`open`, `os.path.exists`, `os.path.isdir`, `os.listdir`, `glob`) and `os.path.normpath` are abstract functions. No consistency between `pathExists` and `read` is assumed.
- Python's `int()` parsing in `get` is the abstract partial function `parseInt`.
- The module-level read of `STATUS_CUSTOM_ROOT_PATH` is `CustomRootPath` over an environment map given as a parameter.
- `get` lets exceptions other than a missing file and a decoding or parse error escape (reported as `Raised`). So "never raises" holds only for those cases. `ls` likewise lets OS errors other than the three it names escape.
- MachineUtils.TempVal: uses exact rational division, not Python float division, so float rounding is not modelled; the result is a real in both branches, so the difference between the int Python returns below the threshold and the float it returns above it is lost.
- `parse_temperature` (lib/machine/utils.py:79-81) is not modelled: it returns a zero (falsy) value as it is, and otherwise divides by 1000 when its `divide` flag is set; it is a float conversion outside the Docker and path logic modelled here.
- lib/machine/__init__.py is not part of this model. It awaits the CPU collector and calls the other five directly, with no exception handling around any of them, so one failing collector fails the whole report; failures are not isolated per collector.
- `sorted` is modelled by insertion sort. Any sort with the same contract gives the same list (`SortedPermutationUnique`).
