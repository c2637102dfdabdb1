/** The graphics-memory probe: the vendor tool's `<MiB>, <name>` lines
    are read into a name-keyed table in insertion order, the first
    dedicated graphics controller is picked, and on NVIDIA hardware its
    reported memory is corrected from the table. The controller list, the
    platform name and the tool's output are inputs. */
module SystemInfo {
  import opened Common
  import opened JsStrings

  /** The probe's answer: memory in bytes and the controller's model name. */
  datatype GPUInfo = GPUInfo(vram: int, name: string)

  /** A graphics controller as the system-information library reports it:
      `vendor` and `model` may be "", `vram` (in MiB) may be null, and
      `pciID` may be missing altogether. */
  datatype Controller = Controller(vendor: string, model: string, vram: Option<int>, pciID: Option<string>)

  /** A JavaScript `Map` from GPU name to bytes: its names in insertion
      order, each once, and the value of each. */
  datatype Table = Table(order: seq<string>, values: map<string, int>)

  const MiB := 1024 * 1024
  const UnknownGpuName := "Unknown GPU"
  const LinuxPlatform := "linux"

  // ---------------------------------------------------------------------
  // The name-keyed table

  /** Every name is listed once, and exactly the listed names have values. */
  predicate WellFormed(t: Table) {
    && (forall i, j :: 0 <= i < j < |t.order| ==> t.order[i] != t.order[j])
    && (forall n :: n in t.values ==> n in t.order)
    && (forall i :: 0 <= i < |t.order| ==> t.order[i] in t.values)
  }

  /** The table `getNvidiaVRAMMap` fills: a `Map` from GPU name to bytes. */
  type VramMap = Table

  const EmptyMap: VramMap := Table([], map[])

  /** `map.get(name)` */
  function Lookup(t: VramMap, name: string): Option<int> {
    if name in t.values then Some(t.values[name]) else None
  }

  /** `map.set(name, bytes)`: a name already present keeps its position and
      takes the new value; a new name is added last. */
  function Set(t: VramMap, name: string, bytes: int): (r: VramMap)
    ensures Lookup(r, name) == Some(bytes)
    ensures t.order <= r.order && |r.order| <= |t.order| + 1
    ensures t.order != [] ==> r.order[0] == t.order[0]
  {
    if name in t.values then Table(t.order, t.values[name := bytes])
    else Table(t.order + [name], t.values[name := bytes])
  }

  /** Setting one name leaves every other name's value as it was. */
  lemma SetKeepsOthers(t: VramMap, name: string, bytes: int, other: string)
    requires other != name
    ensures Lookup(Set(t, name, bytes), other) == Lookup(t, other)
  {
  }

  /** Setting keeps the table well formed: still each name once, and
      exactly the listed names with values. */
  lemma SetWellFormed(t: VramMap, name: string, bytes: int)
    requires WellFormed(t)
    ensures WellFormed(Set(t, name, bytes))
  {
    var r := Set(t, name, bytes);
    if name !in t.values {
      assert name !in t.order;
      forall i, j | 0 <= i < j < |r.order| ensures r.order[i] != r.order[j] {
        if j == |t.order| {
          assert r.order[i] == t.order[i];
        }
      }
    }
  }

  // ---------------------------------------------------------------------
  // Reading the vendor tool's output

  /** A parsed output line: a GPU name and its memory in bytes. */
  datatype ToolLine = ToolLine(name: string, bytes: int)

  /** One output line `<MiB>, <name>`: the line is split on every comma,
      the first two fields are trimmed, the first is read by `parseInt`
      and scaled to bytes. A line with no number or no second field gives
      nothing. */
  function ParseLine(line: string): (r: Option<ToolLine>)
    ensures r.Some? ==> ',' !in r.value.name
  {
    var fields := Split(line, ',');
    if |fields| < 2 then None
    else
      match ParseInt(Trim(fields[0]))
      case None => None
      case Some(mib) =>
        TrimKeepsOut(fields[1], ',');
        Some(ToolLine(Trim(fields[1]), mib * MiB))
  }

  /** The line the tool prints for a GPU of `mib` MiB named `name`. */
  function FormatLine(mib: nat, name: string): string {
    NatToString(mib) + ", " + name
  }

  /** Each printed line reads back as `name ↦ mib · 1024 · 1024`. */
  lemma ParseFormattedLine(mib: nat, name: string)
    requires ',' !in name && Trim(name) == name
    ensures ParseLine(FormatLine(mib, name)) == Some(ToolLine(name, mib * MiB))
  {
    var digits := NatToString(mib);
    SplitFormattedLine(digits, name);
    ParseDigits(mib);
    TrimLeadingSpace(name);
    ParseLineOfTwoFields(FormatLine(mib, name), digits, " " + name);
  }

  /** A line of exactly two fields parses from its trimmed fields. */
  lemma ParseLineOfTwoFields(line: string, first: string, second: string)
    requires Split(line, ',') == [first, second]
    ensures ParseLine(line) == match ParseInt(Trim(first))
      case None => None
      case Some(mib) => Some(ToolLine(Trim(second), mib * MiB))
  {
  }

  /** The printed number, trimmed, reads back as itself. */
  lemma ParseDigits(mib: nat)
    ensures ParseInt(Trim(NatToString(mib))) == Some(mib)
  {
    TrimDigits(mib);
    ParseIntOfNat(mib);
  }

  lemma SplitFormattedLine(digits: string, name: string)
    requires AllDigits(digits) && ',' !in name
    ensures Split(digits + ", " + name, ',') == [digits, " " + name]
  {
    assert ',' !in digits by {
      forall i | 0 <= i < |digits| ensures digits[i] != ',' {
        assert IsDigit(digits[i]);
      }
    }
    assert ',' !in " " + name;
    assert digits + ", " + name == Join([digits, " " + name], ',');
    SplitJoin([digits, " " + name], ',');
  }

  lemma {:induction false} TrimDigits(mib: nat)
    ensures Trim(NatToString(mib)) == NatToString(mib)
  {
    var d := NatToString(mib);
    assert !IsWhitespace(d[0]);
    assert TrimStart(d) == d;
    assert !IsWhitespace(d[|d| - 1]);
  }

  lemma {:induction false} TrimLeadingSpace(name: string)
    requires Trim(name) == name
    ensures Trim(" " + name) == name
  {
    TrimStartSpace(name);
    assert Trim(" " + name) == TrimEnd(TrimStart(name));
  }

  lemma {:induction false} TrimStartSpace(name: string)
    ensures TrimStart(" " + name) == TrimStart(name)
  {
    assert (" " + name)[1..] == name;
  }

  /** Each output line, parsed by `parse`. */
  function ParseEach(lines: seq<string>, parse: string -> Option<ToolLine>): (parsed: seq<Option<ToolLine>>)
    ensures |parsed| == |lines|
    ensures forall i :: 0 <= i < |lines| ==> parsed[i] == parse(lines[i])
  {
    seq(|lines|, i requires 0 <= i < |lines| => parse(lines[i]))
  }

  /** Each output line, parsed. */
  function ParseLines(lines: seq<string>): seq<Option<ToolLine>> {
    ParseEach(lines, ParseLine)
  }

  /** The table built by setting the first `n` parsed lines in turn. */
  function BuildPrefix(parsed: seq<Option<ToolLine>>, n: nat): VramMap
    requires n <= |parsed|
  {
    if n == 0 then EmptyMap else Extend(BuildPrefix(parsed, n - 1), parsed[n - 1])
  }

  /** One parsed line applied to the table: set when it parsed, skipped otherwise. */
  function Extend(t: VramMap, line: Option<ToolLine>): VramMap {
    match line
    case None => t
    case Some(e) => Set(t, e.name, e.bytes)
  }

  /** The table of the tool's output lines. */
  function TableOf(lines: seq<string>): (t: VramMap)
    ensures WellFormed(t)
  {
    var parsed := ParseLines(lines);
    BuildWellFormed(parsed, |parsed|);
    BuildPrefix(parsed, |parsed|)
  }

  /** The value the last of the first `n` parsed lines naming `name` carries, if any does. */
  function LastValueFor(parsed: seq<Option<ToolLine>>, n: nat, name: string): Option<int>
    requires n <= |parsed|
  {
    if n == 0 then None
    else
      var e := parsed[n - 1];
      if e.Some? && e.value.name == name then Some(e.value.bytes)
      else LastValueFor(parsed, n - 1, name)
  }

  /** A later line with the same name overwrites the earlier value: every
      name reads back as the value of the last line that names it. */
  lemma {:induction false} BuildLookup(parsed: seq<Option<ToolLine>>, n: nat, name: string)
    requires n <= |parsed|
    ensures Lookup(BuildPrefix(parsed, n), name) == LastValueFor(parsed, n, name)
  {
    if n > 0 {
      var t := BuildPrefix(parsed, n - 1);
      BuildLookup(parsed, n - 1, name);
      match parsed[n - 1]
      case None =>
        assert BuildPrefix(parsed, n) == t;
      case Some(line) =>
        assert BuildPrefix(parsed, n) == Set(t, line.name, line.bytes);
        if line.name != name {
          SetKeepsOthers(t, line.name, line.bytes, name);
        }
    }
  }

  /** The table's first name is that of the first line that parses, even
      when later lines overwrite its value. */
  lemma {:induction false} BuildFirst(parsed: seq<Option<ToolLine>>, n: nat, k: nat)
    requires k < n <= |parsed| && parsed[k].Some?
    requires forall j :: 0 <= j < k ==> parsed[j].None?
    ensures BuildPrefix(parsed, n).order != [] && BuildPrefix(parsed, n).order[0] == parsed[k].value.name
  {
    if k == n - 1 {
      NothingParsed(parsed, n - 1);
    } else {
      BuildFirst(parsed, n - 1, k);
    }
  }

  /** Every table built from parsed lines is well formed. */
  lemma {:induction false} BuildWellFormed(parsed: seq<Option<ToolLine>>, n: nat)
    requires n <= |parsed|
    ensures WellFormed(BuildPrefix(parsed, n))
  {
    if n > 0 {
      BuildWellFormed(parsed, n - 1);
      if parsed[n - 1].Some? {
        SetWellFormed(BuildPrefix(parsed, n - 1), parsed[n - 1].value.name, parsed[n - 1].value.bytes);
      }
    }
  }

  lemma {:induction false} NothingParsed(parsed: seq<Option<ToolLine>>, n: nat)
    requires n <= |parsed|
    requires forall j :: 0 <= j < n ==> parsed[j].None?
    ensures BuildPrefix(parsed, n) == EmptyMap
  {
    if n > 0 {
      NothingParsed(parsed, n - 1);
    }
  }

  /** The lines of the tool's output: stdout trimmed, then split on newlines. */
  function OutputLines(stdout: string): seq<string> {
    Split(Trim(stdout), '\n')
  }

  /** `getNvidiaVRAMMap()`: `None` when the tool failed; otherwise the table
      of its trimmed output's lines. */
  method GetNvidiaVRAMMap(toolOutput: Option<string>) returns (table: Option<VramMap>)
    ensures toolOutput.None? ==> table.None?
    ensures toolOutput.Some? ==> table == Some(TableOf(OutputLines(toolOutput.value)))
  {
    if toolOutput.None? {
      return None;
    }
    var lines := OutputLines(toolOutput.value);
    // `lines.length === 0` cannot hold: a split always yields at least one piece.
    var vramMap := FillTable(lines, ParseLine);
    return Some(vramMap);
  }

  /** The loop of `getNvidiaVRAMMap`: the table built in place, one line
      at a time, each line read by `parse`. */
  method FillTable(lines: seq<string>, parse: string -> Option<ToolLine>) returns (vramMap: VramMap)
    ensures vramMap == BuildPrefix(ParseEach(lines, parse), |lines|)
  {
    ghost var parsed := ParseEach(lines, parse);
    vramMap := EmptyMap;
    var i := 0;
    while i < |lines|
      invariant 0 <= i <= |lines|
      invariant vramMap == BuildPrefix(parsed, i)
    {
      var entry := parse(lines[i]);
      if entry.Some? {
        vramMap := Set(vramMap, entry.value.name, entry.value.bytes);
      }
      i := i + 1;
    }
  }

  // ---------------------------------------------------------------------
  // Picking the controller

  /** `vendor.toLowerCase().includes(v)` for some v of nvidia, amd, ati, intel. */
  predicate IsGpuVendor(vendor: string) {
    var lower := ToLower(vendor);
    Includes(lower, "nvidia") || Includes(lower, "amd") || Includes(lower, "ati") || Includes(lower, "intel")
  }

  predicate IsNvidia(vendor: string) {
    Includes(ToLower(vendor), "nvidia")
  }

  /** Positive memory, a non-empty vendor among the four, and a bus id that
      is not the empty string (a missing bus id passes). */
  predicate Qualifies(c: Controller)
    ensures IsNvidia(c.vendor) && c.vram.Some? && c.vram.value > 0 && c.pciID != Some("") ==> Qualifies(c)
  {
    && c.vram.Some? && c.vram.value > 0
    && c.vendor != ""
    && c.pciID != Some("")
    && IsGpuVendor(c.vendor)
  }

  /** `controllers.some(c => c.vendor?.toLowerCase().includes("nvidia"))` */
  predicate HasNvidiaGPU(controllers: seq<Controller>)
    ensures HasNvidiaGPU(controllers) <==> exists i :: 0 <= i < |controllers| && IsNvidia(controllers[i].vendor)
  {
    if controllers == [] then false
    else if IsNvidia(controllers[0].vendor) then true
    else
      assert forall i :: 1 <= i < |controllers| ==> controllers[i] == controllers[1..][i - 1];
      HasNvidiaGPU(controllers[1..])
  }

  ghost predicate IsFirstQualifying(controllers: seq<Controller>, i: int) {
    && 0 <= i < |controllers|
    && Qualifies(controllers[i])
    && forall j :: 0 <= j < i ==> !Qualifies(controllers[j])
  }

  /** The `for`/`break` scan for the first dedicated controller. */
  method FindDedicatedGPU(controllers: seq<Controller>) returns (found: Option<nat>)
    ensures found.Some? ==> IsFirstQualifying(controllers, found.value)
    ensures found.None? ==> forall j :: 0 <= j < |controllers| ==> !Qualifies(controllers[j])
  {
    found := None;
    for i := 0 to |controllers|
      invariant forall j :: 0 <= j < i ==> !Qualifies(controllers[j])
    {
      if Qualifies(controllers[i]) {
        found := Some(i);
        break;
      }
    }
  }

  /** The substring test of the correction: either name includes the other. */
  predicate NamesMatch(gpuName: string, toolName: string) {
    Includes(gpuName, toolName) || Includes(toolName, gpuName)
  }

  /** The position of the first name, in insertion order, that matches. */
  function FirstMatch(names: seq<string>, gpuName: string): (r: Option<nat>)
    ensures r.Some? ==> r.value < |names| && NamesMatch(gpuName, names[r.value])
    ensures r.Some? ==> forall j :: 0 <= j < r.value ==> !NamesMatch(gpuName, names[j])
    ensures r.None? ==> forall j :: 0 <= j < |names| ==> !NamesMatch(gpuName, names[j])
  {
    if names == [] then None
    else if NamesMatch(gpuName, names[0]) then Some(0)
    else match FirstMatch(names[1..], gpuName)
      case None => None
      case Some(k) => Some(k + 1)
  }

  /** The scan stops at `i` exactly when `i` matches and nothing before it does. */
  lemma {:induction false} FirstMatchAt(names: seq<string>, gpuName: string, i: nat)
    requires i < |names| && NamesMatch(gpuName, names[i])
    requires forall j :: 0 <= j < i ==> !NamesMatch(gpuName, names[j])
    ensures FirstMatch(names, gpuName) == Some(i)
  {
    if i > 0 {
      assert !NamesMatch(gpuName, names[0]);
      forall j | 0 <= j < i - 1 ensures !NamesMatch(gpuName, names[1..][j]) {
        assert names[1..][j] == names[j + 1];
      }
      FirstMatchAt(names[1..], gpuName, i - 1);
    }
  }

  /** The value of the entry at position `i`. */
  function ValueAt(t: VramMap, i: nat): int
    requires WellFormed(t) && i < |t.order|
  {
    t.values[t.order[i]]
  }

  /** The value the correction yields: the first matching entry's value;
      then, if the value still equals the reported one (no match, or a
      match with the same value), the first entry's value when non-zero. */
  function Corrected(gpuName: string, reported: int, t: VramMap): (vram: int)
    requires WellFormed(t)
    ensures vram == reported || exists i :: 0 <= i < |t.order| && vram == ValueAt(t, i)
    ensures t.order == [] ==> vram == reported
  {
    var afterMatch := match FirstMatch(t.order, gpuName)
      case Some(i) => ValueAt(t, i)
      case None => reported;
    if afterMatch == reported && t.order != [] && ValueAt(t, 0) != 0 then ValueAt(t, 0) else afterMatch
  }

  /** The two correction steps of `getGPUVRAM`, updating `vram` in place:
      the scan over the entries in insertion order, then the fallback. */
  method CorrectVRAM(gpuName: string, reported: int, t: VramMap) returns (vram: int)
    requires WellFormed(t)
    ensures vram == Corrected(gpuName, reported, t)
  {
    vram := reported;
    for i := 0 to |t.order|
      invariant vram == reported
      invariant forall j :: 0 <= j < i ==> !NamesMatch(gpuName, t.order[j])
    {
      var nvidiaName := t.order[i];
      if Includes(gpuName, nvidiaName) || Includes(nvidiaName, gpuName) {
        FirstMatchAt(t.order, gpuName, i);
        vram := ValueAt(t, i);
        break;
      }
    }
    if vram == reported {
      if t.order != [] && ValueAt(t, 0) != 0 {
        vram := ValueAt(t, 0);
      }
    }
  }

  /** The answer for a chosen controller: its model name (or "Unknown GPU")
      and its reported memory in bytes, corrected from the table when there
      is one and the controller is NVIDIA. */
  function Profile(c: Controller, table: Option<VramMap>): (info: GPUInfo)
    requires Qualifies(c) && (table.Some? ==> WellFormed(table.value))
    ensures info.name != ""
    ensures info.vram == c.vram.value * MiB
      || (table.Some? && exists i :: 0 <= i < |table.value.order| && info.vram == ValueAt(table.value, i))
  {
    var reported := c.vram.value * MiB;
    var name := if c.model != "" then c.model else UnknownGpuName;
    var vram := if table.Some? && IsNvidia(c.vendor) then Corrected(name, reported, table.value) else reported;
    GPUInfo(vram, name)
  }

  /** `getGPUVRAM()`. `graphics` is the library's controller list, `None`
      when the library call throws; `toolOutput` is what the vendor tool
      would print, `None` when it fails. `ranTool` says whether the tool was
      consulted. */
  method GetGPUVRAM(graphics: Option<seq<Controller>>, platform: string, toolOutput: Option<string>)
    returns (ranTool: bool, info: Option<GPUInfo>)
    ensures graphics.None? ==> !ranTool && info.None?
    ensures graphics.Some? ==> ranTool == (platform == LinuxPlatform && HasNvidiaGPU(graphics.value))
    ensures graphics.Some? ==>
      (info.None? <==> forall j :: 0 <= j < |graphics.value| ==> !Qualifies(graphics.value[j]))
    ensures info.Some? ==> graphics.Some? && exists i ::
      && IsFirstQualifying(graphics.value, i)
      && info.value == Profile(graphics.value[i], if ranTool && toolOutput.Some? then Some(TableOf(OutputLines(toolOutput.value))) else None)
  {
    ranTool := false;
    if graphics.None? {
      return false, None;
    }
    var controllers := graphics.value;
    var nvidiaVRAMMap: Option<VramMap> := None;
    if platform == LinuxPlatform && HasNvidiaGPU(controllers) {
      ranTool := true;
      nvidiaVRAMMap := GetNvidiaVRAMMap(toolOutput);
    }
    var found := FindDedicatedGPU(controllers);
    if found.None? {
      return ranTool, None;
    }
    var gpu := controllers[found.value];
    var vram := gpu.vram.value * MiB;
    var name := if gpu.model != "" then gpu.model else UnknownGpuName;
    if nvidiaVRAMMap.Some? && IsNvidia(gpu.vendor) {
      vram := CorrectVRAM(name, vram, nvidiaVRAMMap.value);
    }
    info := Some(GPUInfo(vram, name));
    assert info.value == Profile(gpu, nvidiaVRAMMap);
  }

  // ---------------------------------------------------------------------
  // What the correction does

  /** Without a table, or for a vendor other than NVIDIA, the reported
      memory in bytes is the answer. */
  lemma ProfileUncorrected(c: Controller, table: Option<VramMap>)
    requires Qualifies(c) && (table.Some? ==> WellFormed(table.value))
    requires table.None? || !IsNvidia(c.vendor)
    ensures Profile(c, table).vram == c.vram.value * MiB
    ensures Profile(c, table).name == if c.model == "" then UnknownGpuName else c.model
  {
  }

  /** An entry named exactly like the GPU, with a value other than the
      reported one, is the answer when no earlier entry matches. */
  lemma ExactNameMatch(gpuName: string, reported: int, t: VramMap, i: nat)
    requires WellFormed(t) && i < |t.order| && t.order[i] == gpuName && ValueAt(t, i) != reported
    requires forall j :: 0 <= j < i ==> !NamesMatch(gpuName, t.order[j])
    ensures Corrected(gpuName, reported, t) == ValueAt(t, i)
  {
    IncludesSelf(gpuName);
    assert NamesMatch(gpuName, t.order[i]);
    var m := FirstMatch(t.order, gpuName);
    assert m.Some? && m.value == i;
  }

  /** With no matching name, the first entry's value is the answer when non-zero. */
  lemma NoMatchFallsBackToFirst(gpuName: string, reported: int, t: VramMap)
    requires WellFormed(t)
    requires forall j :: 0 <= j < |t.order| ==> !NamesMatch(gpuName, t.order[j])
    ensures Corrected(gpuName, reported, t) == if t.order != [] && ValueAt(t, 0) != 0 then ValueAt(t, 0) else reported
  {
    assert FirstMatch(t.order, gpuName).None?;
  }

  /** A match whose value happens to equal the reported one does not stick:
      the fallback takes the first entry's value instead. */
  lemma EqualMatchIsOverridden(gpuName: string, reported: int, t: VramMap, i: nat)
    requires WellFormed(t)
    requires FirstMatch(t.order, gpuName) == Some(i)
    requires ValueAt(t, i) == reported && ValueAt(t, 0) != 0
    ensures Corrected(gpuName, reported, t) == ValueAt(t, 0)
  {
  }

  /** An example of that override: a 4 GiB card reported as 4096 MiB and
      listed by the tool second, after an unrelated 8 GiB card, is
      answered with 8 GiB. */
  lemma EqualMatchExample()
    ensures var t := Set(Set(EmptyMap, "Quadro P4000", 8192 * MiB), "GeForce GTX 1650", 4096 * MiB);
      WellFormed(t) && Corrected("GeForce GTX 1650", 4096 * MiB, t) == 8192 * MiB
  {
    var quadro, geforce := "Quadro P4000", "GeForce GTX 1650";
    assert quadro[0] != geforce[0];
    var t := Set(Set(EmptyMap, quadro, 8192 * MiB), geforce, 4096 * MiB);
    TwoEntries(quadro, geforce, 8192 * MiB, 4096 * MiB);
    assert quadro[0] !in geforce;
    NotIncludedWhenFirstCharAbsent(geforce, quadro);
    NotIncludedWhenLonger(quadro, geforce);
    IncludesSelf(geforce);
    assert FirstMatch(t.order, geforce) == Some(1);
  }

  /** Two entries with different names, set in order. */
  lemma TwoEntries(first: string, second: string, a: int, b: int)
    requires first != second
    ensures var t := Set(Set(EmptyMap, first, a), second, b);
      && t.order == [first, second] && WellFormed(t)
      && ValueAt(t, 0) == a && ValueAt(t, 1) == b
  {
    var t1 := Set(EmptyMap, first, a);
    assert t1.order == [first];
    SetWellFormed(EmptyMap, first, a);
    SetKeepsOthers(EmptyMap, first, a, second);
    assert Lookup(t1, second).None?;
    var t := Set(t1, second, b);
    assert t.order == [first, second];
    SetKeepsOthers(t1, second, b, first);
    SetWellFormed(t1, second, b);
    assert Lookup(t, first) == Some(a) && Lookup(t, second) == Some(b);
  }

  /** The vendor test is a substring test, so "ati" inside "Corporation"
      makes any such vendor count as a graphics vendor. */
  lemma CorporationCountsAsGpuVendor()
    ensures IsGpuVendor("Microsoft Corporation")
  {
    var lower := ToLower("Microsoft Corporation");
    assert lower == "microsoft corporation";
    assert OccursAt(lower, "ati", 16);
    IncludesIff(lower, "ati");
  }
}
