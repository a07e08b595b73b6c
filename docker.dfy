/** The container-runtime collector of `lib/machine/docker.py`.

    The three `docker` CLI runs (`docker info`, `docker ps -a`, `docker stats
    --no-stream`) are inputs: each either exits with a code and standard
    output, or fails to complete (timeout, missing binary, OS error). The JSON
    decoder is an abstract partial function from a line to an object whose
    values are strings, and the configuration toggle is a boolean. */
module Docker {
  import opened Wrappers
  import opened PyStr

  type JsonObject = map<String, String>
  type Decoder = String -> Option<JsonObject>

  /** One run of the docker CLI. */
  datatype CliRun = Exited(code: int, stdout: String) | Failed

  /** A container as listed by `docker ps`, with the live figures merged in
      from `docker stats` when they exist. */
  datatype Container = Container(
    id: String, name: String, image: String, status: String,
    state: String, ports: String, created: String,
    usage: Option<Usage>)

  /** The five figures copied from a stats record onto a container. */
  datatype Usage = Usage(cpu: String, memory: String, memoryPercent: String, netIo: String, blockIo: String)

  /** One line of `docker stats`. */
  datatype Stat = Stat(
    id: String, name: String, cpu: String, memory: String,
    memoryPercent: String, netIo: String, blockIo: String)

  datatype Summary = Summary(available: bool, running: nat, stopped: nat, total: nat, containers: seq<Container>)

  /** `obj.get(key, default)`. */
  function Field(obj: JsonObject, key: String, default: String): String {
    if key in obj then obj[key] else default
  }

  /** `is_available()`: `docker info` ran and exited with code 0. */
  predicate IsAvailable(probe: CliRun) {
    probe.Exited? && probe.code == 0
  }

  /** A CLI run whose output is parsed: it completed with exit code 0. */
  predicate Succeeded(run: CliRun) {
    run.Exited? && run.code == 0
  }

  /** `stdout.strip().split("\n")`. */
  function OutputLines(run: CliRun): seq<String>
    requires run.Exited?
  {
    Split(Strip(run.stdout), '\n')
  }

  // ---------------------------------------------------------------------
  // Line parsing, shared by `get_containers` and `get_stats`

  /** What one line contributes: nothing when it is empty or does not decode,
      its object otherwise. */
  function DecodeLine(line: String, decode: Decoder): (objs: seq<JsonObject>)
    ensures |objs| <= 1
    ensures |objs| == 1 <==> line != [] && decode(line).Some?
    ensures |objs| == 1 ==> objs[0] == decode(line).value
  {
    if line == [] then []
    else match decode(line)
      case None => []
      case Some(obj) => [obj]
  }

  /** The objects of the lines that are non-empty and decode, in line order. */
  function DecodeLines(lines: seq<String>, decode: Decoder): (objs: seq<JsonObject>)
    ensures |objs| <= |lines|
  {
    if lines == [] then []
    else DecodeLines(lines[..|lines| - 1], decode) + DecodeLine(lines[|lines| - 1], decode)
  }

  /** Lines are parsed independently: the parse of a concatenation is the
      concatenation of the parses. */
  lemma {:induction false} DecodeLinesAppend(a: seq<String>, b: seq<String>, decode: Decoder)
    ensures DecodeLines(a + b, decode) == DecodeLines(a, decode) + DecodeLines(b, decode)
    decreases |b|
  {
    if b == [] {
      assert a + b == a;
    } else {
      var b' := b[..|b| - 1];
      assert (a + b)[..|a + b| - 1] == a + b';
      DecodeLinesAppend(a, b', decode);
    }
  }

  /** A malformed or empty line is skipped without disturbing the lines
      around it. */
  lemma SkipsBadLine(before: seq<String>, bad: String, after: seq<String>, decode: Decoder)
    requires bad == [] || decode(bad).None?
    ensures DecodeLines(before + [bad] + after, decode)
            == DecodeLines(before, decode) + DecodeLines(after, decode)
  {
    var single := DecodeLines([bad], decode);
    assert single == [] by {
      assert [bad][..0] == [];
      assert DecodeLine(bad, decode) == [];
    }
    DecodeLinesAppend(before, [bad], decode);
    DecodeLinesAppend(before + [bad], after, decode);
  }

  /** When every line is non-empty and decodes, each line yields exactly its
      own object, at its own position. */
  lemma {:induction false} DecodeLinesAllGood(lines: seq<String>, decode: Decoder)
    requires forall i :: 0 <= i < |lines| ==> lines[i] != [] && decode(lines[i]).Some?
    ensures |DecodeLines(lines, decode)| == |lines|
    ensures forall i :: 0 <= i < |lines| ==> DecodeLines(lines, decode)[i] == decode(lines[i]).value
  {
    if lines != [] {
      DecodeLinesAllGood(lines[..|lines| - 1], decode);
    }
  }

  /** One more line parsed. */
  lemma DecodeLinesExtend(lines: seq<String>, i: nat, decode: Decoder)
    requires i < |lines|
    ensures DecodeLines(lines[..i + 1], decode) == DecodeLines(lines[..i], decode) + DecodeLine(lines[i], decode)
  {
    assert lines[..i + 1][..i] == lines[..i];
  }

  // ---------------------------------------------------------------------
  // Records with per-key defaults

  /** The record `get_containers` builds from one decoded line: each listing
      field defaults to the empty string, and no live figures yet. */
  function ContainerOf(obj: JsonObject): (c: Container)
    ensures c.usage.None?
  {
    Container(
      Field(obj, "ID", ""), Field(obj, "Names", ""), Field(obj, "Image", ""),
      Field(obj, "Status", ""), Field(obj, "State", ""), Field(obj, "Ports", ""),
      Field(obj, "CreatedAt", ""), None)
  }

  /** The record `get_stats` builds from one decoded line: the CPU and memory
      percentages default to "0%", every other field to the empty string. */
  function StatOf(obj: JsonObject): Stat {
    Stat(
      Field(obj, "ID", ""), Field(obj, "Name", ""), Field(obj, "CPUPerc", "0%"),
      Field(obj, "MemUsage", ""), Field(obj, "MemPerc", "0%"),
      Field(obj, "NetIO", ""), Field(obj, "BlockIO", ""))
  }

  /** A key missing from a `docker ps` line leaves its field empty; a key
      present is copied as it is. */
  lemma ContainerDefaults(obj: JsonObject)
    ensures var c := ContainerOf(obj);
            && c.id == (if "ID" in obj then obj["ID"] else "")
            && c.name == (if "Names" in obj then obj["Names"] else "")
            && c.image == (if "Image" in obj then obj["Image"] else "")
            && c.status == (if "Status" in obj then obj["Status"] else "")
            && c.state == (if "State" in obj then obj["State"] else "")
            && c.ports == (if "Ports" in obj then obj["Ports"] else "")
            && c.created == (if "CreatedAt" in obj then obj["CreatedAt"] else "")
    ensures ContainerOf(map[]) == Container("", "", "", "", "", "", "", None)
  {
  }

  /** A key missing from a `docker stats` line leaves its field empty, except
      the CPU and memory percentages, which read "0%". */
  lemma StatDefaults(obj: JsonObject)
    ensures var s := StatOf(obj);
            && s.id == (if "ID" in obj then obj["ID"] else "")
            && s.name == (if "Name" in obj then obj["Name"] else "")
            && s.cpu == (if "CPUPerc" in obj then obj["CPUPerc"] else "0%")
            && s.memory == (if "MemUsage" in obj then obj["MemUsage"] else "")
            && s.memoryPercent == (if "MemPerc" in obj then obj["MemPerc"] else "0%")
            && s.netIo == (if "NetIO" in obj then obj["NetIO"] else "")
            && s.blockIo == (if "BlockIO" in obj then obj["BlockIO"] else "")
    ensures StatOf(map[]) == Stat("", "", "0%", "", "0%", "", "")
  {
  }

  /** The record built from each decoded object, in order. */
  function Records<R>(objs: seq<JsonObject>, build: JsonObject -> R): (rs: seq<R>)
    ensures |rs| == |objs|
    ensures forall i :: 0 <= i < |objs| ==> rs[i] == build(objs[i])
  {
    seq(|objs|, i requires 0 <= i < |objs| => build(objs[i]))
  }

  lemma RecordsExtend<R>(objs: seq<JsonObject>, obj: JsonObject, build: JsonObject -> R)
    ensures Records(objs + [obj], build) == Records(objs, build) + [build(obj)]
  {
  }

  /** What `get_containers` returns for a run of `docker ps -a`. */
  function ListedContainers(run: CliRun, decode: Decoder): (cs: seq<Container>)
    ensures !Succeeded(run) ==> cs == []
    ensures forall i :: 0 <= i < |cs| ==> cs[i].usage.None?
  {
    if !Succeeded(run) then [] else Records(DecodeLines(OutputLines(run), decode), ContainerOf)
  }

  /** What `get_stats` returns for a run of `docker stats --no-stream`. */
  function ParsedStats(run: CliRun, decode: Decoder): (ss: seq<Stat>)
    ensures !Succeeded(run) ==> ss == []
  {
    if !Succeeded(run) then [] else Records(DecodeLines(OutputLines(run), decode), StatOf)
  }

  /** The loop `get_containers` and `get_stats` share: every non-empty line
      that decodes is turned into one record and appended; the other lines
      are skipped. */
  method ParseLines<R>(lines: seq<String>, decode: Decoder, build: JsonObject -> R) returns (records: seq<R>)
    ensures records == Records(DecodeLines(lines, decode), build)
  {
    records := [];
    ghost var objs: seq<JsonObject> := [];
    var i := 0;
    while i < |lines|
      invariant 0 <= i <= |lines|
      invariant objs == DecodeLines(lines[..i], decode)
      invariant records == Records(objs, build)
    {
      var line := lines[i];
      DecodeLinesExtend(lines, i, decode);
      if line != [] {
        match decode(line) {
          case Some(obj) =>
            records := records + [build(obj)];
            RecordsExtend(objs, obj, build);
            objs := objs + [obj];
          case None =>
        }
      }
      i := i + 1;
    }
    assert lines[..i] == lines;
  }

  /** `get_containers()`: one record per non-empty line of `docker ps -a`
      that decodes, in line order; `[]` when the run failed or exited
      non-zero. */
  method GetContainers(run: CliRun, decode: Decoder) returns (containers: seq<Container>)
    ensures containers == ListedContainers(run, decode)
  {
    if !run.Exited? || run.code != 0 {
      return [];
    }
    containers := ParseLines(OutputLines(run), decode, ContainerOf);
  }

  /** `get_stats()`: one record per non-empty line of `docker stats` that
      decodes, in line order; `[]` when the run failed or exited non-zero. */
  method GetStats(run: CliRun, decode: Decoder) returns (stats: seq<Stat>)
    ensures stats == ParsedStats(run, decode)
  {
    if !run.Exited? || run.code != 0 {
      return [];
    }
    stats := ParseLines(OutputLines(run), decode, StatOf);
  }

  // ---------------------------------------------------------------------
  // Merge and count

  /** `{s["name"]: s for s in stats}`: a later record with the same name
      replaces an earlier one. */
  function StatsByName(stats: seq<Stat>): map<String, Stat> {
    if stats == [] then map[]
    else
      var last := stats[|stats| - 1];
      StatsByName(stats[..|stats| - 1])[last.name := last]
  }

  /** The position of the last record carrying `name`, if any. */
  function LastWithName(stats: seq<Stat>, name: String): (r: Option<nat>)
    ensures r.None? <==> forall j :: 0 <= j < |stats| ==> stats[j].name != name
    ensures r.Some? ==> r.value < |stats| && stats[r.value].name == name
                        && forall k :: r.value < k < |stats| ==> stats[k].name != name
  {
    if stats == [] then None
    else if stats[|stats| - 1].name == name then Some(|stats| - 1)
    else
      var prefix := stats[..|stats| - 1];
      assert forall j :: 0 <= j < |prefix| ==> prefix[j] == stats[j];
      LastWithName(prefix, name)
  }

  /** The lookup holds exactly the names some record carries, and for each
      the last such record in input order. */
  lemma {:induction false} LookupKeepsLast(stats: seq<Stat>, name: String)
    ensures name in StatsByName(stats) <==> LastWithName(stats, name).Some?
    ensures name in StatsByName(stats) ==> StatsByName(stats)[name] == stats[LastWithName(stats, name).value]
  {
    if stats != [] {
      var prefix := stats[..|stats| - 1];
      LookupKeepsLast(prefix, name);
      if stats[|stats| - 1].name != name {
        assert LastWithName(stats, name) == LastWithName(prefix, name);
        if LastWithName(prefix, name).Some? {
          assert stats[LastWithName(prefix, name).value] == prefix[LastWithName(prefix, name).value];
        }
      }
    }
  }

  function UsageOf(s: Stat): Usage {
    Usage(s.cpu, s.memory, s.memoryPercent, s.netIo, s.blockIo)
  }

  /** The listing fields of two records agree. */
  predicate SameListing(a: Container, b: Container) {
    a.id == b.id && a.name == b.name && a.image == b.image && a.status == b.status
    && a.state == b.state && a.ports == b.ports && a.created == b.created
  }

  /** One iteration of the merge loop: the stats figures of the container's
      name are copied on, when the lookup has that name. */
  function Enrich(c: Container, lookup: map<String, Stat>): (r: Container)
    ensures SameListing(r, c)
    ensures c.name in lookup ==> r.usage == Some(UsageOf(lookup[c.name]))
    ensures c.name !in lookup ==> r == c
  {
    if c.name in lookup then c.(usage := Some(UsageOf(lookup[c.name]))) else c
  }

  /** The list after the merge loop. */
  function Merged(cs: seq<Container>, lookup: map<String, Stat>): (r: seq<Container>)
    ensures |r| == |cs|
    ensures forall i :: 0 <= i < |cs| ==> r[i] == Enrich(cs[i], lookup)
  {
    seq(|cs|, i requires 0 <= i < |cs| => Enrich(cs[i], lookup))
  }

  /** `sum(1 for c in containers if c["state"] == "running")`. */
  function CountRunning(cs: seq<Container>): (n: nat)
    ensures n <= |cs|
  {
    if cs == [] then 0
    else (if cs[0].state == "running" then 1 else 0) + CountRunning(cs[1..])
  }

  /** The containers in any other state than exactly "running". */
  function CountNotRunning(cs: seq<Container>): nat {
    if cs == [] then 0
    else (if cs[0].state != "running" then 1 else 0) + CountNotRunning(cs[1..])
  }

  /** Every container is counted once: running or not. */
  lemma {:induction false} RunningAndStoppedPartition(cs: seq<Container>)
    ensures CountRunning(cs) + CountNotRunning(cs) == |cs|
  {
    if cs != [] {
      RunningAndStoppedPartition(cs[1..]);
    }
  }

  /** The count reads only the states. */
  lemma {:induction false} CountRunningByStates(a: seq<Container>, b: seq<Container>)
    requires |a| == |b|
    requires forall i :: 0 <= i < |a| ==> a[i].state == b[i].state
    ensures CountRunning(a) == CountRunning(b)
  {
    if a != [] {
      CountRunningByStates(a[1..], b[1..]);
    }
  }

  /** The summary `get_info` returns for a (merged) container list. */
  function Summarize(cs: seq<Container>): Summary {
    var running := CountRunning(cs);
    Summary(true, running, |cs| - running, |cs|, cs)
  }

  /** `get_info()` as a function of its inputs. */
  function Info(enabled: bool, probe: CliRun, listing: CliRun, statsRun: CliRun, decode: Decoder): Option<Summary> {
    if !enabled || !IsAvailable(probe) then None
    else
      var lookup := StatsByName(ParsedStats(statsRun, decode));
      Some(Summarize(Merged(ListedContainers(listing, decode), lookup)))
  }

  /** `get_info()`: `None` when the collector is switched off or docker is
      unavailable; otherwise the listed containers, each enriched with the
      figures of the stats record of the same name, and their counts. */
  method GetInfo(enabled: bool, probe: CliRun, listing: CliRun, statsRun: CliRun, decode: Decoder)
    returns (info: Option<Summary>)
    ensures info == Info(enabled, probe, listing, statsRun, decode)
    ensures info.None? <==> !enabled || !IsAvailable(probe)
    ensures info.Some? ==> info.value.available
                           && info.value.running + info.value.stopped == info.value.total
                           && info.value.total == |info.value.containers|
  {
    if !enabled {
      return None;
    }
    if !(probe.Exited? && probe.code == 0) {
      return None;
    }
    var containers := GetContainers(listing, decode);
    var stats := GetStats(statsRun, decode);
    var lookup := StatsByName(stats);
    containers := MergeStats(containers, lookup);
    var running := CountRunning(containers);
    var stopped := |containers| - running;
    info := Some(Summary(true, running, stopped, |containers|, containers));
    assert info.value == Summarize(containers);
  }

  /** The merge loop of `get_info`: each container whose name the lookup
      holds gets that record's five figures; the others stay as listed. */
  method MergeStats(listed: seq<Container>, lookup: map<String, Stat>) returns (containers: seq<Container>)
    ensures containers == Merged(listed, lookup)
  {
    containers := listed;
    var i := 0;
    while i < |containers|
      invariant 0 <= i <= |containers| == |listed|
      invariant forall k :: 0 <= k < i ==> containers[k] == Enrich(listed[k], lookup)
      invariant forall k :: i <= k < |containers| ==> containers[k] == listed[k]
    {
      var name := containers[i].name;
      if name in lookup {
        var s := lookup[name];
        containers := containers[i := containers[i].(usage := Some(Usage(s.cpu, s.memory, s.memoryPercent, s.netIo, s.blockIo)))];
      }
      i := i + 1;
    }
  }

  // ---------------------------------------------------------------------
  // Properties of the summary

  /** The counts add up, `running` counts exactly the containers whose state
      is "running", and all other containers are counted as stopped. */
  lemma InfoCounts(enabled: bool, probe: CliRun, listing: CliRun, statsRun: CliRun, decode: Decoder)
    requires enabled && IsAvailable(probe)
    ensures var s := Info(enabled, probe, listing, statsRun, decode).value;
            && s.running + s.stopped == s.total == |s.containers|
            && s.running == CountRunning(ListedContainers(listing, decode))
            && s.stopped == CountNotRunning(ListedContainers(listing, decode))
  {
    var listed := ListedContainers(listing, decode);
    var merged := Merged(listed, StatsByName(ParsedStats(statsRun, decode)));
    CountRunningByStates(merged, listed);
    RunningAndStoppedPartition(listed);
  }

  /** Merging neither adds, drops nor reorders containers, and leaves their
      listing fields as they were. */
  lemma InfoKeepsListing(enabled: bool, probe: CliRun, listing: CliRun, statsRun: CliRun, decode: Decoder)
    requires enabled && IsAvailable(probe)
    ensures var s := Info(enabled, probe, listing, statsRun, decode).value;
            var listed := ListedContainers(listing, decode);
            && |s.containers| == |listed|
            && forall i :: 0 <= i < |listed| ==> SameListing(s.containers[i], listed[i])
  {
  }

  /** A container carries live figures iff some stats record has its name,
      and then they are those of the last such record. */
  lemma InfoEnrichment(enabled: bool, probe: CliRun, listing: CliRun, statsRun: CliRun, decode: Decoder, i: nat)
    requires enabled && IsAvailable(probe)
    requires i < |ListedContainers(listing, decode)|
    ensures var c := Info(enabled, probe, listing, statsRun, decode).value.containers[i];
            var stats := ParsedStats(statsRun, decode);
            var last := LastWithName(stats, ListedContainers(listing, decode)[i].name);
            c.usage == if last.Some? then Some(UsageOf(stats[last.value])) else None
  {
    var listed := ListedContainers(listing, decode);
    var stats := ParsedStats(statsRun, decode);
    var lookup := StatsByName(stats);
    assert Info(enabled, probe, listing, statsRun, decode).value.containers == Merged(listed, lookup);
    LookupKeepsLast(stats, listed[i].name);
  }

  /** Two containers, one running and one exited, and stats for the first
      only: one running, one stopped, and only the first carries figures. */
  lemma MergeExample()
    ensures var a := Container("a1", "A", "img", "Up", "running", "", "t", None);
            var b := Container("b1", "B", "img", "Exited (0)", "exited", "", "t", None);
            var sa := Stat("a1", "A", "1.5%", "10MiB / 1GiB", "1.0%", "1kB / 2kB", "0B / 0B");
            var s := Summarize(Merged([a, b], StatsByName([sa])));
            && s.running == 1 && s.stopped == 1 && s.total == 2
            && s.containers[0].usage == Some(UsageOf(sa)) && s.containers[1].usage.None?
  {
    var a := Container("a1", "A", "img", "Up", "running", "", "t", None);
    var b := Container("b1", "B", "img", "Exited (0)", "exited", "", "t", None);
    var sa := Stat("a1", "A", "1.5%", "10MiB / 1GiB", "1.0%", "1kB / 2kB", "0B / 0B");
    var merged := Merged([a, b], StatsByName([sa]));
    assert StatsByName([sa]) == map["A" := sa];
    assert merged == [a.(usage := Some(UsageOf(sa))), b];
    assert CountRunning(merged) == 1;
  }
}
