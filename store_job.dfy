/** Storing AMS simulations as rows of the ASE database (tools/db/store_job.py):
    the strings and decisions that go into a stored row (its name, space
    group, calculator and functional strings, the training/test/none
    classification, the runtime stamp), the one-line summary `row_info`
    prints, and the writes `add_sim_to_db`, `add_ic_to_db` and `add_to_db`
    make. The job itself is reduced to the data these read; reading files,
    running PLAMS and the numeric results are parameters or left out. */
module StoreJob {
  import opened Common
  import opened Text

  datatype Error =
    | KeyError(key: string)
    | IndexError
    | ValueError(message: string)

  // ---------------------------------------------------------------------------
  // get_key_value and the row summary
  // ---------------------------------------------------------------------------

  /** A key-value pair of a database row. */
  datatype Value = Text(s: string) | Flag(b: bool) | Number(x: real)

  /** An ASE row as `row_info` reads it. */
  datatype AtomsRow = AtomsRow(id: nat, user: string, name: string, task: string, formula: string,
                               keyValues: map<string, Value>)

  /** `get_key_value(row, key)`: the value, or None when the row lacks the key. */
  function GetKeyValue<V>(keyValues: map<string, V>, key: string): (r: Option<V>)
    ensures r.None? <==> key !in keyValues
    ensures r.Some? ==> r.value == keyValues[key]
  {
    if key in keyValues then Some(keyValues[key]) else None
  }

  /** A field cut to `width` characters, the last one replaced by `*` when it was too long. */
  function Truncate(s: string, width: nat): (r: string)
    requires width >= 1
  {
    if |s| > width then s[..width - 1] + "*" else s
  }

  /** A short field is kept; a long one keeps its first width-1 characters
      followed by `*`, so the result is never wider than `width`, and cutting
      twice is cutting once. */
  lemma TruncateFits(s: string, width: nat)
    requires width >= 1
    ensures |Truncate(s, width)| <= width
    ensures |s| <= width ==> Truncate(s, width) == s
    ensures |s| > width ==> (|Truncate(s, width)| == width
                             && Truncate(s, width)[..width - 1] == s[..width - 1]
                             && Truncate(s, width)[width - 1] == '*')
    ensures Truncate(Truncate(s, width), width) == Truncate(s, width)
  {
  }

  /** The header line of `row_info`, with `'user'.center(14)` and
      `'name'.center(16)`, `'task'.center(16)` written out. */
  const Header: string :=
    "\t  id | " + "     user     " + " | " + "      name      " + " | " + "      task      " + " |"
    + " formula |  energy  | success |  used_in  "

  /** The columns at which both lines of `row_info` put a `|`. */
  const Separators: seq<nat> := [6, 23, 42, 61, 71, 82, 92]

  /** `str(v)`; how a float prints is left to `realRepr`. */
  function Display(v: Value, realRepr: real -> string): string {
    match v
    case Text(s) => s
    case Flag(b) => if b then "True" else "False"
    case Number(x) => realRepr(x)
  }

  /** The data line of `row_info` from its padded cells. */
  function Columns(id: string, user: string, name: string, task: string, formula: string,
                   energy: string, success: string, usedIn: string): string
  {
    "\t " + id + " | " + user + " | " + name + " | " + task + " | " + formula + " " + "| "
    + energy + " | " + success + " | " + usedIn + " "
  }

  /** The data line of `row_info` from its already-rendered cells: the id
      right-aligned in 3, user, name, task and formula left-aligned in 14, 16,
      16 and 7, energy, success and used_in right-aligned in 8, 7 and 9. */
  function DataLine(id: nat, user: string, name: string, task: string, formula: string,
                    energy: string, success: string, usedIn: string): string
  {
    Columns(RJust(Decimal(id), 3), LJust(user, 14), LJust(name, 16), LJust(task, 16), LJust(formula, 7),
            RJust(energy, 8), RJust(success, 7), RJust(usedIn, 9))
  }

  /** The energy cell before padding: a number printed by `fixed3`
      (`format(x, ">8.3f")`, a bool counting as 1.0 or 0.0), empty when absent. */
  function EnergyCell(energy: Option<Value>, fixed3: real -> string): string {
    match energy
    case Some(Number(x)) => fixed3(x)
    case Some(Flag(b)) => fixed3(if b then 1.0 else 0.0)
    case _ => ""
  }

  /** The success cell before padding: `str` of the value, empty when absent. */
  function SuccessCell(success: Option<Value>, realRepr: real -> string): string {
    if success.None? then "" else Display(success.value, realRepr)
  }

  /** The used_in cell before padding: the text, empty when absent. */
  function UsedInCell(usedIn: Option<Value>): string {
    if usedIn.Some? && usedIn.value.Text? then usedIn.value.s else ""
  }

  /** `format(s, ">8.3f")` on a string. */
  const EnergyFormatError: string := "Unknown format code 'f' for object of type 'str'"

  /** `format(v, ">9s")` on a value that is not a string. */
  const UsedInFormatError: string := "Unknown format code 's'"

  /** `row_info(row)`: the header and the data line. A missing energy,
      success or used_in is an empty cell; a text energy or a non-text
      used_in is the ValueError the format spec raises. */
  function RowInfo(row: AtomsRow, fixed3: real -> string, realRepr: real -> string): Result<string, Error>
  {
    var user := Truncate(row.user, 14);
    var task := Truncate(row.task, 16);
    var name := Truncate(row.name, 16);
    var energy := GetKeyValue(row.keyValues, "energy");
    var success := GetKeyValue(row.keyValues, "success");
    var usedIn := GetKeyValue(row.keyValues, "used_in");
    if energy.Some? && energy.value.Text? then Err(ValueError(EnergyFormatError))
    else if usedIn.Some? && !usedIn.value.Text? then Err(ValueError(UsedInFormatError))
    else
      Ok(Join([Header, DataLine(row.id, user, name, task, row.formula,
                                EnergyCell(energy, fixed3), SuccessCell(success, realRepr), UsedInCell(usedIn))], "\n"))
  }

  lemma HeaderShape()
    ensures |Header| == 104
    ensures forall k :: 0 <= k < |Separators| ==> Header[Separators[k]] == '|'
  {
  }

  /** The data line with cells of exactly their column widths. */
  lemma {:induction false} CellsInColumns(id: string, user: string, name: string, task: string, formula: string,
                                          energy: string, success: string, usedIn: string)
    requires |id| == 3 && |user| == 14 && |name| == 16 && |task| == 16
    requires |formula| == 7 && |energy| == 8 && |success| == 7 && |usedIn| == 9
    ensures var line := Columns(id, user, name, task, formula, energy, success, usedIn);
      && |line| == |Header|
      && (forall k :: 0 <= k < |Separators| ==> line[Separators[k]] == '|')
      && line[8..22] == user && line[25..41] == name && line[44..60] == task
      && line[73..81] == energy && line[84..91] == success && line[94..103] == usedIn
  {
    var a := "\t " + id + " | ";
    var b := a + user + " | ";
    var c := b + name + " | ";
    var d := c + task + " | ";
    var e := d + formula + " " + "| ";
    var f := e + energy + " | ";
    var g := f + success + " | ";
    var line := g + usedIn + " ";
    assert a[6] == '|' && b[..8] == a && b[8..22] == user && b[23] == '|';
    assert c[..25] == b && c[25..41] == name && c[42] == '|';
    assert d[..44] == c && d[44..60] == task && d[61] == '|';
    assert e[..63] == d && e[71] == '|';
    assert f[..73] == e && f[73..81] == energy && f[82] == '|';
    assert g[..84] == f && g[92] == '|';
    assert line[..94] == g && line[94..103] == usedIn;
    assert line[6] == '|' && line[23] == '|' && line[42] == '|' && line[61] == '|';
    assert line[8..22] == user && line[25..41] == name && line[44..60] == task && line[73..81] == energy;
    assert line[84..91] == success;
  }

  /** Every cell of the data line is exactly as wide as its column once the
      id has at most three digits and formula, energy, success and used_in
      fit their columns (user, name and task always fit, being cut); with
      CellsInColumns the data line then lines up under the header. */
  lemma DataLineCellWidths(id: nat, user: string, name: string, task: string, formula: string,
                           energy: string, success: string, usedIn: string)
    requires id < 1000
    requires |formula| <= 7 && |energy| <= 8 && |success| <= 7 && |usedIn| <= 9
    ensures |RJust(Decimal(id), 3)| == 3
    ensures |LJust(Truncate(user, 14), 14)| == 14
    ensures |LJust(Truncate(name, 16), 16)| == 16 && |LJust(Truncate(task, 16), 16)| == 16
    ensures |LJust(formula, 7)| == 7 && |RJust(energy, 8)| == 8 && |RJust(success, 7)| == 7 && |RJust(usedIn, 9)| == 9
  {
    DecimalWidth(id);
    TruncateFits(user, 14);
    TruncateFits(name, 16);
    TruncateFits(task, 16);
  }

  /** `row_info` either raises the format error of a text energy (checked
      first) or of a used_in that is not text, or prints the header, a
      newline and the data line. In the data line an absent energy, success
      or used_in is an empty cell whatever the other two keys hold; a number
      or bool energy is printed by `fixed3`, a success by `str` and a used_in
      as its text. */
  lemma RowInfoLines(row: AtomsRow, fixed3: real -> string, realRepr: real -> string)
    ensures var kv := row.keyValues;
      var textEnergy := "energy" in kv && kv["energy"].Text?;
      var nonTextUsedIn := "used_in" in kv && !kv["used_in"].Text?;
      var r := RowInfo(row, fixed3, realRepr);
      && (textEnergy ==> r == Err(ValueError(EnergyFormatError)))
      && (!textEnergy && nonTextUsedIn ==> r == Err(ValueError(UsedInFormatError)))
      && (r.Ok? <==> !textEnergy && !nonTextUsedIn)
      && (r.Ok? ==>
            r.value == Header + "\n" + DataLine(row.id, Truncate(row.user, 14), Truncate(row.name, 16),
                                                Truncate(row.task, 16), row.formula,
                                                EnergyCell(GetKeyValue(kv, "energy"), fixed3),
                                                SuccessCell(GetKeyValue(kv, "success"), realRepr),
                                                UsedInCell(GetKeyValue(kv, "used_in"))))
      && ("energy" !in kv ==> EnergyCell(GetKeyValue(kv, "energy"), fixed3) == "")
      && ("energy" in kv && kv["energy"].Number? ==> EnergyCell(GetKeyValue(kv, "energy"), fixed3) == fixed3(kv["energy"].x))
      && ("energy" in kv && kv["energy"].Flag? ==>
            EnergyCell(GetKeyValue(kv, "energy"), fixed3) == fixed3(if kv["energy"].b then 1.0 else 0.0))
      && ("success" !in kv ==> SuccessCell(GetKeyValue(kv, "success"), realRepr) == "")
      && ("success" in kv ==> SuccessCell(GetKeyValue(kv, "success"), realRepr) == Display(kv["success"], realRepr))
      && ("used_in" !in kv ==> UsedInCell(GetKeyValue(kv, "used_in")) == "")
      && ("used_in" in kv && kv["used_in"].Text? ==> UsedInCell(GetKeyValue(kv, "used_in")) == kv["used_in"].s)
  {
    var kv := row.keyValues;
    var line := DataLine(row.id, Truncate(row.user, 14), Truncate(row.name, 16), Truncate(row.task, 16), row.formula,
                         EnergyCell(GetKeyValue(kv, "energy"), fixed3),
                         SuccessCell(GetKeyValue(kv, "success"), realRepr),
                         UsedInCell(GetKeyValue(kv, "used_in")));
    JoinTwo(Header, line, "\n");
  }

  lemma JoinTwo(a: string, b: string, sep: string)
    ensures Join([a, b], sep) == a + sep + b
  {
    assert [a, b][1..] == [b];
  }

  /** Every cell of the row's data line fits its column. */
  predicate CellsFit(row: AtomsRow, fixed3: real -> string, realRepr: real -> string) {
    && row.id < 1000 && |row.formula| <= 7
    && |EnergyCell(GetKeyValue(row.keyValues, "energy"), fixed3)| <= 8
    && |SuccessCell(GetKeyValue(row.keyValues, "success"), realRepr)| <= 7
    && |UsedInCell(GetKeyValue(row.keyValues, "used_in"))| <= 9
  }

  /** `line` holds `cell` at columns from..to. */
  predicate Cell(line: string, from: nat, to: nat, cell: string) {
    from <= to <= |line| && line[from..to] == cell
  }

  /** The output of `row_info` holds `cell` at columns from..to of its data
      line, which starts after the 104-character header and its newline. */
  predicate CellAt(out: string, from: nat, to: nat, cell: string) {
    from <= to && 105 + to <= |out| && out[105 + from..105 + to] == cell
  }

  /** When the cells fit, `row_info` prints the 104-character header, a
      newline and a data line of the same length, with every cell padded
      under its heading. */
  lemma RowInfoCells(row: AtomsRow, fixed3: real -> string, realRepr: real -> string)
    requires RowInfo(row, fixed3, realRepr).Ok? && CellsFit(row, fixed3, realRepr)
    ensures var out := RowInfo(row, fixed3, realRepr).value;
      && |out| == 2 * |Header| + 1 && out[..|Header|] == Header && out[|Header|] == '\n'
      && CellAt(out, 8, 22, LJust(Truncate(row.user, 14), 14))
      && CellAt(out, 25, 41, LJust(Truncate(row.name, 16), 16))
      && CellAt(out, 44, 60, LJust(Truncate(row.task, 16), 16))
      && CellAt(out, 73, 81, RJust(EnergyCell(GetKeyValue(row.keyValues, "energy"), fixed3), 8))
      && CellAt(out, 84, 91, RJust(SuccessCell(GetKeyValue(row.keyValues, "success"), realRepr), 7))
      && CellAt(out, 94, 103, RJust(UsedInCell(GetKeyValue(row.keyValues, "used_in")), 9))
  {
    var kv := row.keyValues;
    var energy := EnergyCell(GetKeyValue(kv, "energy"), fixed3);
    var success := SuccessCell(GetKeyValue(kv, "success"), realRepr);
    var usedIn := UsedInCell(GetKeyValue(kv, "used_in"));
    var line := DataLine(row.id, Truncate(row.user, 14), Truncate(row.name, 16), Truncate(row.task, 16), row.formula,
                         energy, success, usedIn);
    var out := RowInfo(row, fixed3, realRepr).value;
    assert out == Header + "\n" + line by {
      RowInfoLines(row, fixed3, realRepr);
    }
    HeaderShape();
    HeaderThenLine(line);
    BlankCells(row.id, row.user, row.name, row.task, row.formula, energy, success, usedIn);
    assert out[105..] == line;
  }

  /** Each of energy, success and used_in that the row lacks is a blank cell
      under its heading, whatever the other keys hold. */
  lemma AbsentFieldsAreBlank(row: AtomsRow, fixed3: real -> string, realRepr: real -> string)
    requires RowInfo(row, fixed3, realRepr).Ok? && CellsFit(row, fixed3, realRepr)
    ensures var out := RowInfo(row, fixed3, realRepr).value;
      && ("energy" !in row.keyValues ==> CellAt(out, 73, 81, Spaces(8)))
      && ("success" !in row.keyValues ==> CellAt(out, 84, 91, Spaces(7)))
      && ("used_in" !in row.keyValues ==> CellAt(out, 94, 103, Spaces(9)))
  {
    RowInfoCells(row, fixed3, realRepr);
    assert RJust("", 8) == Spaces(8);
    assert RJust("", 7) == Spaces(7);
    assert RJust("", 9) == Spaces(9);
  }

  lemma HeaderThenLine(line: string)
    ensures var out := Header + "\n" + line;
      |out| == |Header| + 1 + |line| && out[..|Header|] == Header && out[|Header|] == '\n' && out[|Header| + 1..] == line
  {
  }

  /** The data line of fitting cells lines up under the header, and an
      empty energy, success or used_in is a column of spaces. */
  lemma BlankCells(id: nat, user: string, name: string, task: string, formula: string,
                   energy: string, success: string, usedIn: string)
    requires id < 1000
    requires |formula| <= 7 && |energy| <= 8 && |success| <= 7 && |usedIn| <= 9
    ensures var line := DataLine(id, Truncate(user, 14), Truncate(name, 16), Truncate(task, 16), formula,
                                 energy, success, usedIn);
      && |line| == |Header|
      && Cell(line, 8, 22, LJust(Truncate(user, 14), 14))
      && Cell(line, 25, 41, LJust(Truncate(name, 16), 16))
      && Cell(line, 44, 60, LJust(Truncate(task, 16), 16))
      && Cell(line, 73, 81, RJust(energy, 8)) && Cell(line, 84, 91, RJust(success, 7))
      && Cell(line, 94, 103, RJust(usedIn, 9))
      && (energy == "" ==> Cell(line, 73, 81, Spaces(8)))
      && (success == "" ==> Cell(line, 84, 91, Spaces(7)))
      && (usedIn == "" ==> Cell(line, 94, 103, Spaces(9)))
  {
    DataLineCellWidths(id, user, name, task, formula, energy, success, usedIn);
    CellsInColumns(RJust(Decimal(id), 3), LJust(Truncate(user, 14), 14), LJust(Truncate(name, 16), 16),
                   LJust(Truncate(task, 16), 16), LJust(formula, 7),
                   RJust(energy, 8), RJust(success, 7), RJust(usedIn, 9));
    assert RJust("", 8) == Spaces(8);
    assert RJust("", 7) == Spaces(7);
    assert RJust("", 9) == Spaces(9);
  }

  // ---------------------------------------------------------------------------
  // is_in_trainigset and the used_in default
  // ---------------------------------------------------------------------------

  /** The decision of `is_in_trainigset` on the two file texts. */
  function UsedInDecision(name: string, fullDataset: string, trainingSet: string): string {
    if Contains(fullDataset, name) then
      if Contains(trainingSet, name) then "training" else "test"
    else "none"
  }

  /** Training when the name occurs in both texts, test when only in the
      full one, none when not in the full one (whatever the training text
      holds). */
  lemma UsedInThreeWay(name: string, fullDataset: string, trainingSet: string)
    ensures var r := UsedInDecision(name, fullDataset, trainingSet);
      && (r == "training" <==> (exists i :: OccursAt(fullDataset, name, i)) && (exists i :: OccursAt(trainingSet, name, i)))
      && (r == "test" <==> (exists i :: OccursAt(fullDataset, name, i)) && !(exists i :: OccursAt(trainingSet, name, i)))
      && (r == "none" <==> !(exists i :: OccursAt(fullDataset, name, i)))
  {
    ContainsIff(fullDataset, name);
    ContainsIff(trainingSet, name);
  }

  /** `is_in_trainigset(job, full, training)`: each file's `readlines()` joined
      with newlines, then the decision. */
  function IsInTrainingSet(name: string, fullLines: seq<string>, trainingLines: seq<string>): string {
    UsedInDecision(name, Join(fullLines, "\n"), Join(trainingLines, "\n"))
  }

  lemma {:induction false} OccursInJoin(lines: seq<string>, sep: string, k: nat, pat: string, i: nat)
    requires k < |lines| && OccursAt(lines[k], pat, i)
    ensures exists j :: OccursAt(Join(lines, sep), pat, j)
    decreases |lines|
  {
    if |lines| == 1 {
      assert OccursAt(Join(lines, sep), pat, i);
    } else if k == 0 {
      var joined := Join(lines, sep);
      assert joined == lines[0] + (sep + Join(lines[1..], sep));
      assert joined[i..i + |pat|] == lines[0][i..i + |pat|];
      assert OccursAt(joined, pat, i);
    } else {
      OccursInJoin(lines[1..], sep, k - 1, pat, i);
      var j :| OccursAt(Join(lines[1..], sep), pat, j);
      var prefix := lines[0] + sep;
      var joined := Join(lines, sep);
      assert joined == prefix + Join(lines[1..], sep);
      assert joined[|prefix| + j..|prefix| + j + |pat|] == Join(lines[1..], sep)[j..j + |pat|];
      assert OccursAt(joined, pat, |prefix| + j);
    }
  }

  /** A job whose name occurs in a line of both files is "training"; in a
      line of the full file and nowhere in the training file, "test". */
  lemma NameInLines(name: string, fullLines: seq<string>, trainingLines: seq<string>, k: nat, i: nat)
    requires k < |fullLines| && OccursAt(fullLines[k], name, i)
    ensures IsInTrainingSet(name, fullLines, trainingLines) in {"training", "test"}
    ensures IsInTrainingSet(name, fullLines, trainingLines) == "test"
        ==> !exists j :: OccursAt(Join(trainingLines, "\n"), name, j)
    ensures (!exists j :: OccursAt(Join(trainingLines, "\n"), name, j))
        ==> IsInTrainingSet(name, fullLines, trainingLines) == "test"
  {
    var full, training := Join(fullLines, "\n"), Join(trainingLines, "\n");
    OccursInJoin(fullLines, "\n", k, name, i);
    ContainsIff(full, name);
    ContainsIff(training, name);
  }

  /** Python truthiness of the `fulldataset_path` argument: not None and not "". */
  predicate Truthy(path: Option<string>) {
    path.Some? && path.value != ""
  }

  /** The `used_in` of `add_sim_to_db`: classified only when the full-dataset
      path is truthy and the training-set path is not None, otherwise
      "none". `readLines` stands for opening a file and reading its lines. */
  function DefaultUsedIn(name: string, fullPath: Option<string>, trainingPath: Option<string>,
                         readLines: string -> seq<string>): string
  {
    if Truthy(fullPath) && trainingPath.Some? then
      IsInTrainingSet(name, readLines(fullPath.value), readLines(trainingPath.value))
    else "none"
  }

  lemma DefaultUsedInValues(name: string, fullPath: Option<string>, trainingPath: Option<string>,
                            readLines: string -> seq<string>)
    ensures DefaultUsedIn(name, fullPath, trainingPath, readLines) in {"training", "test", "none"}
    ensures !Truthy(fullPath) || trainingPath.None? ==> DefaultUsedIn(name, fullPath, trainingPath, readLines) == "none"
    ensures Truthy(fullPath) && trainingPath.Some? && DefaultUsedIn(name, fullPath, trainingPath, readLines) == "none"
        ==> !exists i :: OccursAt(Join(readLines(fullPath.value), "\n"), name, i)
  {
    if Truthy(fullPath) && trainingPath.Some? {
      UsedInThreeWay(name, Join(readLines(fullPath.value), "\n"), Join(readLines(trainingPath.value), "\n"));
    }
  }

  // ---------------------------------------------------------------------------
  // The stored name, calculator and functional strings
  // ---------------------------------------------------------------------------

  /** `"-".join(job.name.split("-")[1:])`. */
  function DropFirstField(jobName: string): string {
    Join(Split(jobName, '-')[1..], "-")
  }

  /** The stored name is what follows the first `-` of the job name, and
      empty when there is none. */
  lemma DropFirstFieldIsSuffix(jobName: string)
    ensures '-' !in jobName ==> DropFirstField(jobName) == ""
    ensures forall i :: 0 <= i < |jobName| && jobName[i] == '-' && '-' !in jobName[..i]
                    ==> DropFirstField(jobName) == jobName[i + 1..]
  {
    if '-' !in jobName {
      SplitWithoutSeparator(jobName, '-');
    }
    forall i | 0 <= i < |jobName| && jobName[i] == '-' && '-' !in jobName[..i]
      ensures DropFirstField(jobName) == jobName[i + 1..]
    {
      assert jobName == jobName[..i] + ['-'] + jobName[i + 1..];
      SplitAfterFirstSeparator(jobName[..i], jobName[i + 1..], '-');
      JoinSplit(jobName[i + 1..], '-');
    }
  }

  /** The `calculator` string: "ams" and the engine names joined by "/". */
  function CalculatorName(engines: seq<string>): string {
    Join(["ams"] + engines, "/")
  }

  /** Splitting the calculator string at "/" gives back "ams" and the engine
      names, as long as no engine name holds a "/". */
  lemma CalculatorNameRoundTrip(engines: seq<string>)
    requires forall i :: 0 <= i < |engines| ==> '/' !in engines[i]
    ensures Split(CalculatorName(engines), '/') == ["ams"] + engines
  {
    var parts := ["ams"] + engines;
    forall i | 0 <= i < |parts| ensures '/' !in parts[i] {
      if i > 0 {
        assert parts[i] == engines[i - 1];
      }
    }
    SplitJoin(parts, '/');
  }

  /** The entries of the functional list, `f"{xc_type}/{name}"` each. */
  function FunctionalEntries(xc: seq<(string, string)>): (r: seq<string>)
    ensures |r| == |xc|
    ensures forall i :: 0 <= i < |xc| ==> r[i] == xc[i].0 + "/" + xc[i].1
  {
    if xc == [] then [] else FunctionalEntries(xc[..|xc| - 1]) + [xc[|xc| - 1].0 + "/" + xc[|xc| - 1].1]
  }

  lemma {:induction false} JoinAppend(parts: seq<string>, x: string, sep: string)
    requires parts != []
    ensures Join(parts + [x], sep) == Join(parts, sep) + sep + x
    decreases |parts|
  {
    if |parts| == 1 {
      assert (parts + [x])[1..] == [x];
    } else {
      JoinAppend(parts[1..], x, sep);
      assert (parts + [x])[1..] == parts[1..] + [x];
    }
  }

  /** The loop of `add_sim_to_db` that builds `functional` from the xc
      entries of the first engine's input, in order. */
  method FunctionalString(xc: seq<(string, string)>) returns (functional: string)
    ensures functional == Join(FunctionalEntries(xc), ", ")
  {
    var functionalList: seq<string> := [];
    for i := 0 to |xc|
      invariant functionalList == FunctionalEntries(xc[..i])
    {
      var (xcType, name) := xc[i];
      assert xc[..i + 1][..i] == xc[..i];
      functionalList := functionalList + [xcType + "/" + name];
    }
    assert xc[..|xc|] == xc;
    functional := Join(functionalList, ", ");
  }

  /** Each further xc entry extends the functional string by ", type/name". */
  lemma FunctionalExtends(xc: seq<(string, string)>, xcType: string, name: string)
    requires xc != []
    ensures Join(FunctionalEntries(xc + [(xcType, name)]), ", ")
         == Join(FunctionalEntries(xc), ", ") + ", " + xcType + "/" + name
  {
    assert (xc + [(xcType, name)])[..|xc|] == xc;
    JoinAppend(FunctionalEntries(xc), xcType + "/" + name, ", ");
  }

  // ---------------------------------------------------------------------------
  // get_space_group: the three searches and their fallback order
  // ---------------------------------------------------------------------------

  /** `(?<=behind)\w+?\S\w+(?=_-\d)` when `optionalMinus` is false, and the
      same with the look-ahead `(?=_-?\d)` when it is true. */
  datatype Pattern = Pattern(behind: string, optionalMinus: bool)

  const AfterLiF: Pattern := Pattern("LiF_", false)
  const AfterF: Pattern := Pattern("F_", true)
  const AfterLi: Pattern := Pattern("Li_", true)

  /** The order in which `get_space_group` tries the patterns. */
  const SpaceGroupPatterns: seq<Pattern> := [AfterLiF, AfterF, AfterLi]

  predicate Behind(t: string, s: int, pat: Pattern) {
    |pat.behind| <= s <= |t| && t[s - |pat.behind|..s] == pat.behind
  }

  /** The look-ahead at `e`: `_`, then a digit after a `-` (optional or not). */
  predicate Ahead(t: string, e: int, pat: Pattern) {
    0 <= e && e + 1 < |t| && t[e] == '_'
    && if t[e + 1] == '-' then e + 2 < |t| && IsDigit(t[e + 2])
       else pat.optionalMinus && IsDigit(t[e + 1])
  }

  predicate AllWord(t: string, i: int, j: int) {
    0 <= i <= j <= |t| && forall k :: i <= k < j ==> IsWord(t[k])
  }

  /** t[s..e] reads `\w+?\S\w+` with the `\S` at `p`. */
  predicate Shaped(t: string, s: int, p: int, e: int) {
    s < p && p + 1 < e && AllWord(t, s, p) && AllWord(t, p + 1, e) && !IsSpace(t[p])
  }

  /** t[s..e] is a match of the pattern. */
  ghost predicate MatchesAt(t: string, pat: Pattern, s: int, e: int) {
    Behind(t, s, pat) && Ahead(t, e, pat) && exists p :: Shaped(t, s, p, e)
  }

  /** t[s..e] is the match `re.search` reports: no match starts further left. */
  ghost predicate LeftmostMatch(t: string, pat: Pattern, s: int, e: int) {
    MatchesAt(t, pat, s, e) && forall s', e' :: 0 <= s' < s ==> !MatchesAt(t, pat, s', e')
  }

  /** The length of the run of word characters from `q`. */
  function WordRun(t: string, q: nat): (n: nat)
    requires q <= |t|
    ensures AllWord(t, q, q + n)
    ensures q + n == |t| || !IsWord(t[q + n])
    decreases |t| - q
  {
    if q == |t| || !IsWord(t[q]) then 0 else 1 + WordRun(t, q + 1)
  }

  /** The greedy `\w+` from `q`: ends tried from `q + m` down to `q + 1`. */
  function TryGreedy(t: string, pat: Pattern, q: nat, m: nat): (r: Option<nat>)
    requires q + m <= |t|
    ensures r.Some? ==> q < r.value <= q + m && Ahead(t, r.value, pat)
    ensures r.None? ==> forall e :: q < e <= q + m ==> !Ahead(t, e, pat)
    decreases m
  {
    if m == 0 then None
    else if Ahead(t, q + m, pat) then Some(q + m)
    else TryGreedy(t, pat, q, m - 1)
  }

  /** The lazy `\w+?` from `s` with the `\S` at `p`, then at `p + 1`, and so on. */
  function TryLazy(t: string, pat: Pattern, s: nat, p: nat): (r: Option<nat>)
    requires s < p <= |t| && AllWord(t, s, p)
    ensures r.Some? ==> Ahead(t, r.value, pat) && exists p' :: Shaped(t, s, p', r.value)
    ensures r.None? ==> forall p', e :: p <= p' && Shaped(t, s, p', e) ==> !Ahead(t, e, pat)
    decreases |t| - p
  {
    if p == |t| then None
    else
      var here := if IsSpace(t[p]) then None else TryGreedy(t, pat, p + 1, WordRun(t, p + 1));
      if here.Some? then
        assert Shaped(t, s, p, here.value);
        here
      else if IsWord(t[p]) then
        TryLazy(t, pat, s, p + 1)
      else None
  }

  /** The match attempt that starts at `s`. */
  function MatchFrom(t: string, pat: Pattern, s: nat): (r: Option<nat>)
    requires s <= |t|
    ensures r.Some? ==> Ahead(t, r.value, pat) && exists p :: Shaped(t, s, p, r.value)
    ensures r.None? ==> forall p, e :: Shaped(t, s, p, e) ==> !Ahead(t, e, pat)
  {
    if s < |t| && IsWord(t[s]) then TryLazy(t, pat, s, s + 1) else None
  }

  datatype Span = Span(start: nat, end: nat)

  /** `re.search(pattern, t)` from offset `from`. */
  function Search(t: string, pat: Pattern, from: nat): (r: Option<Span>)
    ensures r.Some? ==> from <= r.value.start < r.value.end <= |t|
    ensures r.Some? ==> MatchesAt(t, pat, r.value.start, r.value.end)
    ensures r.Some? ==> forall s, e :: from <= s < r.value.start ==> !MatchesAt(t, pat, s, e)
    ensures r.None? ==> forall s, e :: from <= s ==> !MatchesAt(t, pat, s, e)
    decreases |t| + 1 - from
  {
    if from > |t| then None
    else
      var m := if Behind(t, from, pat) then MatchFrom(t, pat, from) else None;
      if m.Some? then
        var p :| Shaped(t, from, p, m.value);
        Some(Span(from, m.value))
      else Search(t, pat, from + 1)
  }

  /** Positions where the look-behind fails are passed over. */
  lemma {:induction false} SearchSkips(t: string, pat: Pattern, from: nat, to: nat)
    requires from <= to <= |t|
    requires forall s :: from <= s < to ==> !Behind(t, s, pat)
    ensures Search(t, pat, from) == Search(t, pat, to)
    decreases |t| - from
  {
    if from < to {
      assert !Behind(t, from, pat);
      assert Search(t, pat, from) == Search(t, pat, from + 1);
      SearchSkips(t, pat, from + 1, to);
    }
  }

  /** The patterns tried one after the other; the first that matches wins. */
  function FirstMatch(t: string, pats: seq<Pattern>): (r: Option<string>)
    ensures r.None? <==> forall i, s, e :: 0 <= i < |pats| ==> !MatchesAt(t, pats[i], s, e)
    ensures r.Some? ==> exists i, s, e ::
      && 0 <= i < |pats| && 0 <= s <= e <= |t|
      && (forall j, s', e' :: 0 <= j < i ==> !MatchesAt(t, pats[j], s', e'))
      && LeftmostMatch(t, pats[i], s, e) && r.value == t[s..e]
    decreases |pats|
  {
    if pats == [] then None
    else
      var found := Search(t, pats[0], 0);
      if found.Some? then
        assert LeftmostMatch(t, pats[0], found.value.start, found.value.end);
        Some(t[found.value.start..found.value.end])
      else
        var rest := FirstMatch(t, pats[1..]);
        NoMatchInTail(t, pats);
        if rest.Some? then
          ghost var i, s, e :| && 0 <= i < |pats[1..]| && 0 <= s <= e <= |t|
            && (forall j, s', e' :: 0 <= j < i ==> !MatchesAt(t, pats[1..][j], s', e'))
            && LeftmostMatch(t, pats[1..][i], s, e) && rest.value == t[s..e];
          WinnerInTail(t, pats, i);
          rest
        else
          rest
  }

  /** When the first pattern matches nowhere, no pattern matches exactly
      when no pattern of the tail matches. */
  lemma NoMatchInTail(t: string, pats: seq<Pattern>)
    requires pats != []
    requires Search(t, pats[0], 0).None?
    ensures (forall i, s, e :: 0 <= i < |pats| ==> !MatchesAt(t, pats[i], s, e))
        <==> (forall i, s, e :: 0 <= i < |pats[1..]| ==> !MatchesAt(t, pats[1..][i], s, e))
  {
    forall s, e ensures !MatchesAt(t, pats[0], s, e) {
      if s < 0 {
        assert !Behind(t, s, pats[0]);
      }
    }
    forall i | 0 < i < |pats| ensures pats[i] == pats[1..][i - 1] { }
  }

  /** The `i`-th pattern of the tail is the `i + 1`-th of the whole list, and
      every pattern before it matches nowhere. */
  lemma WinnerInTail(t: string, pats: seq<Pattern>, i: nat)
    requires pats != [] && i < |pats[1..]|
    requires Search(t, pats[0], 0).None?
    requires forall j, s', e' :: 0 <= j < i ==> !MatchesAt(t, pats[1..][j], s', e')
    ensures forall j, s', e' :: 0 <= j < i + 1 ==> !MatchesAt(t, pats[j], s', e')
    ensures pats[i + 1] == pats[1..][i]
  {
    forall j, s', e' | 0 <= j < i + 1 ensures !MatchesAt(t, pats[j], s', e') {
      if j > 0 {
        assert pats[j] == pats[1..][j - 1];
      } else if s' < 0 {
        assert !Behind(t, s', pats[0]);
      }
    }
  }

  /** `get_space_group(job)`: the leftmost match of the first of the three
      patterns that matches anywhere in the job name, or None when none does. */
  function SpaceGroup(jobName: string): Option<string> {
    FirstMatch(jobName, SpaceGroupPatterns)
  }

  /** The job name of the documented example. */
  const ExampleName: string := "GO-1.0-2-LiF_Pm-3m_-2.89_2x1x1"

  lemma ExampleWordRun()
    ensures WordRun(ExampleName, 15) == 0 && WordRun(ExampleName, 16) == 3
  {
    var t := ExampleName;
    assert t[15] == '-' && t[19] == '-';
    assert WordRun(t, 19) == 0;
    assert IsWord(t[18]) && IsWord(t[17]) && IsWord(t[16]);
    assert WordRun(t, 18) == 1;
    assert WordRun(t, 17) == 2;
  }

  /** The search after "LiF_" at offset 13: "Pm" for `\w+?`, "-" for `\S`,
      and "3m" for `\w+` once "3m_" is given back to the look-ahead. */
  lemma ExampleMatchAt13()
    ensures Behind(ExampleName, 13, AfterLiF)
    ensures MatchFrom(ExampleName, AfterLiF, 13) == Some(18)
  {
    var t := ExampleName;
    assert t[9..13] == "LiF_";
    ExampleWordRun();
    assert TryLazy(t, AfterLiF, 13, 14) == TryLazy(t, AfterLiF, 13, 15);
    ExampleGreedyAt16();
  }

  /** `\w+` from offset 16 takes "3m_" and gives back "_" to the look-ahead. */
  lemma ExampleGreedyAt16()
    ensures TryGreedy(ExampleName, AfterLiF, 16, 3) == Some(18)
  {
    assert !Ahead(ExampleName, 19, AfterLiF) && Ahead(ExampleName, 18, AfterLiF);
  }

  lemma ExampleNothingBefore13()
    ensures forall s :: 0 <= s < 13 ==> !Behind(ExampleName, s, AfterLiF)
  {
    var t := ExampleName;
    var prefix := "GO-1.0-2-LiF";
    assert t[..12] == prefix;
    assert forall i :: 0 <= i < 12 ==> prefix[i] != '_';
    forall s | 4 <= s < 13 ensures !Behind(t, s, AfterLiF) {
      assert t[s - 4..s][3] == t[s - 1];
      assert t[s - 1] == t[..12][s - 1];
    }
  }

  /** The documented example: a LiF structure in space group Pm-3m. */
  lemma ExampleSearch()
    ensures Search(ExampleName, AfterLiF, 0) == Some(Span(13, 18))
  {
    ExampleMatchAt13();
    assert Search(ExampleName, AfterLiF, 13) == Some(Span(13, 18));
    ExampleNothingBefore13();
    SearchSkips(ExampleName, AfterLiF, 0, 13);
  }

  lemma SpaceGroupExample()
    ensures SpaceGroup(ExampleName) == Some("Pm-3m")
  {
    assert SpaceGroup(ExampleName) == Some(ExampleName[13..18]) by {
      ExampleSearch();
      assert SpaceGroupPatterns[0] == AfterLiF;
    }
    ExampleSlice();
  }

  lemma ExampleSlice()
    ensures ExampleName[13..18] == "Pm-3m"
  {
  }

  // ---------------------------------------------------------------------------
  // get_runtime
  // ---------------------------------------------------------------------------

  /** What one position of `[A-Z][a-z][a-z]\d\d-\d\d\d\d \d\d:\d\d:\d\d` accepts. */
  datatype CharClass = Upper | Lowercase | Digit | Exactly(c: char)

  const StampShape: seq<CharClass> :=
    [Upper, Lowercase, Lowercase, Digit, Digit, Exactly('-'), Digit, Digit, Digit, Digit, Exactly(' '),
     Digit, Digit, Exactly(':'), Digit, Digit, Exactly(':'), Digit, Digit]

  predicate Fits(c: char, k: CharClass) {
    match k
    case Upper => 'A' <= c <= 'Z'
    case Lowercase => 'a' <= c <= 'z'
    case Digit => IsDigit(c)
    case Exactly(d) => c == d
  }

  /** A time stamp such as "Jan01-2023 10:30:00" starts at `i`. */
  predicate StampAt(line: string, i: int) {
    0 <= i && i + |StampShape| <= |line| && forall k :: 0 <= k < |StampShape| ==> Fits(line[i + k], StampShape[k])
  }

  /** The leftmost time stamp of the line from offset `from`. */
  function FindStamp(line: string, from: nat): (r: Option<nat>)
    ensures r.Some? ==> from <= r.value && StampAt(line, r.value)
    ensures r.Some? ==> forall i :: from <= i < r.value ==> !StampAt(line, i)
    ensures r.None? ==> forall i :: from <= i ==> !StampAt(line, i)
    decreases |line| + 1 - from
  {
    if from + |StampShape| > |line| then None
    else if StampAt(line, from) then Some(from)
    else FindStamp(line, from + 1)
  }

  /** `get_runtime` followed by the `strftime` of `add_sim_to_db`: "Not
      Started" when the log is missing (`firstLine` None) or its first line
      holds no stamp; otherwise the leftmost stamp, re-printed by `reformat`,
      which is None when `strptime` rejects it (an unknown month name) and
      the ValueError escapes. */
  function RuntimeString(firstLine: Option<string>, reformat: string -> Option<string>): Result<string, Error> {
    if firstLine.None? then Ok("Not Started")
    else
      match FindStamp(firstLine.value, 0)
      case None => Ok("Not Started")
      case Some(i) =>
        var stamp := firstLine.value[i..i + |StampShape|];
        if reformat(stamp).None? then Err(ValueError("time data does not match format"))
        else Ok(reformat(stamp).value)
  }

  /** "Not Started" is the answer exactly when there is no log or its first
      line holds no stamp anywhere (for a `reformat` that never prints those
      words). */
  lemma RuntimeNotStarted(firstLine: Option<string>, reformat: string -> Option<string>)
    requires forall s :: reformat(s) != Some("Not Started")
    ensures RuntimeString(firstLine, reformat) == Ok("Not Started")
        <==> firstLine.None? || forall i :: 0 <= i ==> !StampAt(firstLine.value, i)
  {
  }

  // ---------------------------------------------------------------------------
  // Writing rows: add_sim_to_db, add_ic_to_db, add_to_db
  // ---------------------------------------------------------------------------

  /** What the storing functions read of an AMS job. `xc` maps an engine
      name to the entries of `settings.input.<engine>.xc`, in order; a
      missing engine reads as an empty PLAMS Settings. */
  datatype Job = Job(name: string, engines: seq<string>, xc: map<string, seq<(string, string)>>,
                     logFirstLine: Option<string>, ok: bool)

  /** The key-value pairs `db.write` stores (besides atoms, scripts, the
      numeric results and the `data` dictionary). */
  datatype Record = Record(
    simName: string, name: string, user: string, task: string, subsetName: string, usedIn: string,
    spaceGroup: Option<string>, runtime: string,
    calculator: Option<string>, functional: Option<string>, success: Option<bool>)

  /** The row `add_sim_to_db` writes, or the exception that stops it first. */
  function SimRecord(job: Job, subsetName: string, user: string, task: string,
                     fullPath: Option<string>, trainingPath: Option<string>,
                     readLines: string -> seq<string>, reformat: string -> Option<string>): Result<Record, Error>
  {
    var runtime := RuntimeString(job.logFirstLine, reformat);
    if runtime.Err? then Err(runtime.error)
    else if job.engines == [] then Err(IndexError)
    else
      var xc := if job.engines[0] in job.xc then job.xc[job.engines[0]] else [];
      Ok(Record(job.name, DropFirstField(job.name), user, task, subsetName,
                DefaultUsedIn(job.name, fullPath, trainingPath, readLines),
                SpaceGroup(job.name), runtime.value,
                Some(CalculatorName(job.engines)), Some(Join(FunctionalEntries(xc), ", ")), Some(job.ok)))
  }

  /** The row `add_ic_to_db` writes: task "initial configuration", used_in
      "none", no calculator, functional or success. */
  function IcRecord(job: Job, subsetName: string, user: string, reformat: string -> Option<string>): Result<Record, Error>
  {
    var runtime := RuntimeString(job.logFirstLine, reformat);
    if runtime.Err? then Err(runtime.error)
    else
      Ok(Record(job.name, DropFirstField(job.name), user, "initial configuration", subsetName, "none",
                SpaceGroup(job.name), runtime.value, None, None, None))
  }

  /** The row the database holds once `r` is written with this id and the
      atoms' formula. Energy is a key only when the atoms carry results,
      which the input atoms of `add_ic_to_db` never do. */
  function StoredRow(id: nat, formula: string, r: Record, energy: Option<real>): AtomsRow {
    var kv := map["sim_name" := Text(r.simName), "subset_name" := Text(r.subsetName),
                  "runtime" := Text(r.runtime), "used_in" := Text(r.usedIn)];
    var kv := if r.success.Some? then kv["success" := Flag(r.success.value)] else kv;
    var kv := if energy.Some? then kv["energy" := Number(energy.value)] else kv;
    AtomsRow(id, r.user, r.name, r.task, formula, kv)
  }

  /** The summary of an initial-configuration row, as in the example of
      `row_info`: the task cut to "initial configu*", blank energy and
      success cells, and "none" right-aligned under used_in. */
  lemma InitialConfigurationSummary(row: AtomsRow, fixed3: real -> string, realRepr: real -> string)
    requires row.id < 1000 && |row.formula| <= 7 && row.task == "initial configuration"
    requires "energy" !in row.keyValues && "success" !in row.keyValues
    requires "used_in" in row.keyValues && row.keyValues["used_in"] == Text("none")
    ensures var out := RowInfo(row, fixed3, realRepr);
      && out.Ok?
      && CellAt(out.value, 44, 60, "initial configu*")
      && CellAt(out.value, 73, 81, Spaces(8)) && CellAt(out.value, 84, 91, Spaces(7))
      && CellAt(out.value, 94, 103, "     none")
  {
    var kv := row.keyValues;
    var usedIn := UsedInCell(GetKeyValue(kv, "used_in"));
    assert usedIn == "none";
    assert RowInfo(row, fixed3, realRepr).Ok? && CellsFit(row, fixed3, realRepr) by {
      RowInfoLines(row, fixed3, realRepr);
    }
    var out := RowInfo(row, fixed3, realRepr).value;
    assert CellAt(out, 44, 60, LJust(Truncate(row.task, 16), 16)) && CellAt(out, 94, 103, RJust(usedIn, 9)) by {
      RowInfoCells(row, fixed3, realRepr);
    }
    assert CellAt(out, 73, 81, Spaces(8)) && CellAt(out, 84, 91, Spaces(7)) by {
      AbsentFieldsAreBlank(row, fixed3, realRepr);
    }
    InitialConfigurationCut();
    NoneCell();
  }

  /** The class "none" prints right-aligned in the used_in column. */
  lemma NoneCell()
    ensures RJust("none", 9) == "     none"
  {
  }

  /** The task of an initial configuration is cut to "initial configu*". */
  lemma InitialConfigurationCut()
    ensures LJust(Truncate("initial configuration", 16), 16) == "initial configu*"
  {
    var task := "initial configuration";
    assert |task| == 21;
    assert task[..15] == "initial configu";
    assert Truncate(task, 16) == "initial configu*";
  }

  /** The row `add_ic_to_db` stores summarises as InitialConfigurationSummary says. */
  lemma IcRowInfo(job: Job, subsetName: string, user: string, reformat: string -> Option<string>,
                  id: nat, formula: string, fixed3: real -> string, realRepr: real -> string)
    requires IcRecord(job, subsetName, user, reformat).Ok? && id < 1000 && |formula| <= 7
    ensures var out := RowInfo(StoredRow(id, formula, IcRecord(job, subsetName, user, reformat).value, None), fixed3, realRepr);
      && out.Ok?
      && CellAt(out.value, 44, 60, "initial configu*")
      && CellAt(out.value, 73, 81, Spaces(8)) && CellAt(out.value, 84, 91, Spaces(7))
      && CellAt(out.value, 94, 103, "     none")
  {
    var r := IcRecord(job, subsetName, user, reformat).value;
    assert r.task == "initial configuration" && r.usedIn == "none" && r.success.None?;
    InitialConfigurationSummary(StoredRow(id, formula, r, None), fixed3, realRepr);
  }

  /** The summary of a simulation row, as in the example of `add_to_db`:
      the energy printed by `fixed3` when present, the success flag as
      "True" or "False" and the used_in class, each right-aligned under its
      heading. */
  lemma SimulationSummary(row: AtomsRow, fixed3: real -> string, realRepr: real -> string)
    requires row.id < 1000 && |row.formula| <= 7
    requires "energy" in row.keyValues ==> row.keyValues["energy"].Number? && |fixed3(row.keyValues["energy"].x)| <= 8
    requires "success" in row.keyValues && row.keyValues["success"].Flag?
    requires "used_in" in row.keyValues && row.keyValues["used_in"].Text? && |row.keyValues["used_in"].s| <= 9
    ensures var out := RowInfo(row, fixed3, realRepr);
      && out.Ok?
      && CellAt(out.value, 84, 91, if row.keyValues["success"].b then "   True" else "  False")
      && CellAt(out.value, 94, 103, RJust(row.keyValues["used_in"].s, 9))
      && ("energy" in row.keyValues ==> CellAt(out.value, 73, 81, RJust(fixed3(row.keyValues["energy"].x), 8)))
      && ("energy" !in row.keyValues ==> CellAt(out.value, 73, 81, Spaces(8)))
  {
    var kv := row.keyValues;
    var success := SuccessCell(GetKeyValue(kv, "success"), realRepr);
    assert RowInfo(row, fixed3, realRepr).Ok? && CellsFit(row, fixed3, realRepr) by {
      RowInfoLines(row, fixed3, realRepr);
    }
    var out := RowInfo(row, fixed3, realRepr).value;
    assert CellAt(out, 84, 91, RJust(success, 7)) && CellAt(out, 94, 103, RJust(kv["used_in"].s, 9))
           && ("energy" in kv ==> CellAt(out, 73, 81, RJust(fixed3(kv["energy"].x), 8))) by {
      RowInfoCells(row, fixed3, realRepr);
    }
    assert "energy" !in kv ==> CellAt(out, 73, 81, Spaces(8)) by {
      AbsentFieldsAreBlank(row, fixed3, realRepr);
    }
    SuccessCellOfFlag(kv["success"].b, realRepr);
  }

  /** A success flag prints as "True" or "False", right-aligned in 7. */
  lemma SuccessCellOfFlag(b: bool, realRepr: real -> string)
    ensures RJust(SuccessCell(Some(Flag(b)), realRepr), 7) == if b then "   True" else "  False"
  {
    assert RJust("True", 7) == "   True";
    assert RJust("False", 7) == "  False";
  }

  /** The row `add_sim_to_db` stores summarises as SimulationSummary says,
      with the job's `ok()` under success and its class under used_in. */
  lemma SimRowInfo(job: Job, subsetName: string, user: string, task: string,
                   fullPath: Option<string>, trainingPath: Option<string>,
                   readLines: string -> seq<string>, reformat: string -> Option<string>,
                   id: nat, formula: string, energy: Option<real>, fixed3: real -> string, realRepr: real -> string)
    requires SimRecord(job, subsetName, user, task, fullPath, trainingPath, readLines, reformat).Ok?
    requires id < 1000 && |formula| <= 7 && (energy.Some? ==> |fixed3(energy.value)| <= 8)
    ensures var r := SimRecord(job, subsetName, user, task, fullPath, trainingPath, readLines, reformat).value;
      var out := RowInfo(StoredRow(id, formula, r, energy), fixed3, realRepr);
      && out.Ok?
      && CellAt(out.value, 84, 91, if job.ok then "   True" else "  False")
      && CellAt(out.value, 94, 103, RJust(r.usedIn, 9))
      && r.usedIn in {"training", "test", "none"}
      && (energy.Some? ==> CellAt(out.value, 73, 81, RJust(fixed3(energy.value), 8)))
  {
    var r := SimRecord(job, subsetName, user, task, fullPath, trainingPath, readLines, reformat).value;
    DefaultUsedInValues(job.name, fullPath, trainingPath, readLines);
    assert r.success == Some(job.ok) && r.usedIn in {"training", "test", "none"};
    assert |r.usedIn| <= 9;
    SimulationSummary(StoredRow(id, formula, r, energy), fixed3, realRepr);
  }

  /** What a stored simulation row promises: its name drops the first field
      of the job name, its used_in is one of the three classes (and "none"
      without both dataset paths), its calculator splits back into "ams" and
      the engines, and its functional lists the first engine's xc entries. */
  lemma SimRecordFields(job: Job, subsetName: string, user: string, task: string,
                        fullPath: Option<string>, trainingPath: Option<string>,
                        readLines: string -> seq<string>, reformat: string -> Option<string>)
    requires forall i :: 0 <= i < |job.engines| ==> '/' !in job.engines[i]
    ensures var r := SimRecord(job, subsetName, user, task, fullPath, trainingPath, readLines, reformat);
      && (r.Err? <==> RuntimeString(job.logFirstLine, reformat).Err? || job.engines == [])
      && (r.Ok? ==>
           && r.value.simName == job.name && r.value.user == user && r.value.task == task
           && r.value.subsetName == subsetName
           && r.value.usedIn in {"training", "test", "none"}
           && (!Truthy(fullPath) || trainingPath.None? ==> r.value.usedIn == "none")
           && Split(r.value.calculator.value, '/') == ["ams"] + job.engines
           && (forall i :: 0 <= i < |job.name| && job.name[i] == '-' && '-' !in job.name[..i]
                 ==> r.value.name == job.name[i + 1..])
           && (job.engines[0] !in job.xc ==> r.value.functional == Some("")))
  {
    DefaultUsedInValues(job.name, fullPath, trainingPath, readLines);
    CalculatorNameRoundTrip(job.engines);
    DropFirstFieldIsSuffix(job.name);
  }

  /** The ASE database: the rows written so far, in order. */
  class Database {
    var records: seq<Record>

    constructor ()
      ensures records == []
    {
      records := [];
    }

    /** `db.write(...)`: appends one row. */
    method Write(r: Record)
      modifies this
      ensures records == old(records) + [r]
    {
      records := records + [r];
    }

    /** `add_sim_to_db`: computes the fields and writes one row; an
        exception leaves the database as it was. */
    method AddSimToDb(job: Job, subsetName: string, user: string, task: string,
                      fullPath: Option<string>, trainingPath: Option<string>,
                      readLines: string -> seq<string>, reformat: string -> Option<string>)
      returns (outcome: Result<Record, Error>)
      modifies this
      ensures outcome == SimRecord(job, subsetName, user, task, fullPath, trainingPath, readLines, reformat)
      ensures records == old(records) + (if outcome.Ok? then [outcome.value] else [])
    {
      var runtime := RuntimeString(job.logFirstLine, reformat);
      if runtime.Err? {
        return Err(runtime.error);
      }
      var usedIn := if Truthy(fullPath) && trainingPath.Some?
        then IsInTrainingSet(job.name, readLines(fullPath.value), readLines(trainingPath.value))
        else "none";
      var calculator := CalculatorName(job.engines);
      var spaceGroup := SpaceGroup(job.name);
      if |job.engines| == 0 {
        return Err(IndexError);
      }
      var xc := if job.engines[0] in job.xc then job.xc[job.engines[0]] else [];
      var functional := FunctionalString(xc);
      var name := DropFirstField(job.name);
      var r := Record(job.name, name, user, task, subsetName, usedIn, spaceGroup, runtime.value,
                      Some(calculator), Some(functional), Some(job.ok));
      Write(r);
      return Ok(r);
    }

    /** `add_ic_to_db`: writes the initial-configuration row of the job. */
    method AddIcToDb(job: Job, subsetName: string, user: string, reformat: string -> Option<string>)
      returns (outcome: Result<Record, Error>)
      modifies this
      ensures outcome == IcRecord(job, subsetName, user, reformat)
      ensures records == old(records) + (if outcome.Ok? then [outcome.value] else [])
    {
      var runtime := RuntimeString(job.logFirstLine, reformat);
      if runtime.Err? {
        return Err(runtime.error);
      }
      var usedIn := "none";
      var task := "initial configuration";
      var r := Record(job.name, DropFirstField(job.name), user, task, subsetName, usedIn,
                      SpaceGroup(job.name), runtime.value, None, None, None);
      Write(r);
      return Ok(r);
    }

    /** `add_to_db`: the user defaults to the USER environment variable (a
        KeyError when unset); with `addIc` the initial configuration is
        written first, then the simulation. The two writes are not one
        transaction: when the simulation fails, the initial configuration
        already written stays. Printing the summary is left out. */
    method AddToDb(job: Job, subsetName: string, task: string, user: Option<string>, environUser: Option<string>,
                   addIc: bool, fullPath: Option<string>, trainingPath: Option<string>,
                   readLines: string -> seq<string>, reformat: string -> Option<string>)
      returns (outcome: Result<(), Error>)
      modifies this
      ensures user.None? && environUser.None? ==> outcome == Err(KeyError("USER")) && records == old(records)
      ensures outcome.Ok? ==>
        var u := if user.Some? then user.value else environUser.value;
        && (addIc ==> IcRecord(job, subsetName, u, reformat).Ok?)
        && SimRecord(job, subsetName, u, task, fullPath, trainingPath, readLines, reformat).Ok?
        && records == old(records)
                      + (if addIc then [IcRecord(job, subsetName, u, reformat).value] else [])
                      + [SimRecord(job, subsetName, u, task, fullPath, trainingPath, readLines, reformat).value]
      // Not atomic: an initial configuration written before the simulation fails stays written.
      ensures outcome.Err? && (user.Some? || environUser.Some?) ==>
        var u := if user.Some? then user.value else environUser.value;
        && ((addIc && IcRecord(job, subsetName, u, reformat).Err?)
            || SimRecord(job, subsetName, u, task, fullPath, trainingPath, readLines, reformat).Err?)
        && records == old(records)
                      + (if addIc && IcRecord(job, subsetName, u, reformat).Ok?
                         then [IcRecord(job, subsetName, u, reformat).value] else [])
    {
      if user.None? && environUser.None? {
        return Err(KeyError("USER"));
      }
      var u := if user.Some? then user.value else environUser.value;
      if addIc {
        var ic := AddIcToDb(job, subsetName, u, reformat);
        if ic.Err? {
          return Err(ic.error);
        }
      }
      var sim := AddSimToDb(job, subsetName, u, task, fullPath, trainingPath, readLines, reformat);
      if sim.Err? {
        return Err(sim.error);
      }
      return Ok(());
    }
  }
}
