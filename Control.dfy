/** The run controller (Control): the settings read from the control file,
    the cells to process with their names and volumes, the cell-to-material
    table and the cell renumbering used for the output directories. */
module RunControl {
  import opened Common
  import S = CinderSettings
  import H = History

  // ---------------------------------------------------------------------
  // State

  /** The fields of a controller that the modelled operations read or
      change. The option set and the history are by-value members in the
      source, so they are held here as values. */
  datatype Setup = Setup(
    libraryPath: string,
    matFile: string,
    mcnpOFiles: seq<string>,
    mcnpHFiles: seq<string>,
    outDirBase: string,
    opt: S.Options,
    htapeNorm: real,
    srcNorm: real,
    volName: map<int, string>,
    vols: map<int, real>,
    matNumber: map<int, int>,
    cellReMap: map<int, int>,
    history: H.Lists)

  /** What the controller learns from outside the control file: the paths
      that exist on disk, the cells each tally of each MCNP input file
      lists, and the value of the uninitialised time variable the history
      reader starts with. */
  datatype Env = Env(existing: set<string>, tallyCells: map<(string, int), seq<int>>, l0: real)

  /** The library path the constructor sets. */
  const DefaultLibrary: string := "/home/stuartansell/cinder-1.05/data/c90lib0742"

  /** A fresh controller (Control.cxx:68-74). `srcNorm` is left
      uninitialised by the source, so its value is a parameter. */
  function Initial(srcNorm: real): Setup
  {
    Setup(DefaultLibrary, "", [], [], "Cell", S.Default, -1.0, srcNorm,
          map[], map[], map[], map[], H.Lists([], [], []))
  }

  // ---------------------------------------------------------------------
  // emplace

  /** std::map::emplace: insert only when the key is absent. */
  function Emplace<V>(m: map<int, V>, k: int, v: V): (r: map<int, V>)
    ensures r.Keys == m.Keys + {k}
    ensures forall j :: j in m ==> r[j] == m[j]
    ensures k !in m ==> r[k] == v
  {
    if k in m then m else m[k := v]
  }

  /** Emplacing `a -> n`, `a+1 -> n+1`, ..., `b -> n+(b-a)` in order. */
  function EmplaceRange(m: map<int, int>, a: int, b: int, n: int): map<int, int>
    decreases b - a
  {
    if a > b then m else EmplaceRange(Emplace(m, a, n), a + 1, b, n + 1)
  }

  /** A range emplace keeps every existing mapping, maps every new key of
      the range to its offset from `n`, and adds no key outside the range. */
  lemma {:induction false} EmplaceRangeMeaning(m: map<int, int>, a: int, b: int, n: int)
    ensures var r := EmplaceRange(m, a, b, n);
      (forall k :: k in r <==> k in m || a <= k <= b)
      && (forall k :: k in m ==> r[k] == m[k])
      && (forall k :: a <= k <= b && k !in m ==> r[k] == n + (k - a))
    decreases b - a
  {
    if a <= b {
      EmplaceRangeMeaning(Emplace(m, a, n), a + 1, b, n + 1);
    }
  }

  // ---------------------------------------------------------------------
  // procCellReMap

  /** procCellReMap (Control.cxx:208-244) on the renumbering map. A name with
      no `-`, or one starting with `-`, is a single cell `A` mapped to `N`
      when they differ; `A-B` maps the range `A..B` onto `N..`; anything
      that does not convert changes nothing. */
  function CellReMapSpec(m: map<int, int>, name: string, line: string): map<int, int>
  {
    var pos := Find(name, '-');
    if pos == |name| || pos == 0 then
      match (ParseInt(name), ParseInt(line))
      case (Some(oa), Some(na)) => if oa != na then Emplace(m, oa, na) else m
      case _ => m
    else
      match (ParseInt(name[..pos]), ParseInt(name[pos + 1..]), ParseInt(line))
      case (Some(oa), Some(ob), Some(na)) => EmplaceRange(m, oa, ob, na)
      case _ => m
  }

  /** The single form never maps a cell to itself and never overwrites. */
  lemma CellReMapSingle(m: map<int, int>, name: string, line: string, oa: int, na: int)
    requires ParseInt(name) == Some(oa) && '-' !in name[1..] && ParseInt(line) == Some(na)
    ensures var r := CellReMapSpec(m, name, line);
      r.Keys == (if oa == na then m.Keys else m.Keys + {oa})
      && (forall k :: k in m ==> r[k] == m[k])
      && (oa != na && oa !in m ==> r[oa] == na)
  {
  }

  /** The range form `A-B` with new start `N`: each `A+k` for `0 <= k <= B-A`
      not mapped before is mapped to `N+k`, existing mappings stay, and an
      empty range (`A > B`) adds nothing. */
  lemma CellReMapRange(m: map<int, int>, name: string, line: string, pos: nat, oa: int, ob: int, na: int)
    requires 0 < pos < |name| && name[pos] == '-' && '-' !in name[..pos]
    requires ParseInt(name[..pos]) == Some(oa) && ParseInt(name[pos + 1..]) == Some(ob)
    requires ParseInt(line) == Some(na)
    ensures var r := CellReMapSpec(m, name, line);
      (forall k :: k in r <==> k in m || oa <= k <= ob)
      && (forall k :: k in m ==> r[k] == m[k])
      && (forall k :: oa <= k <= ob && k !in m ==> r[k] == na + (k - oa))
      && (oa > ob ==> r == m)
  {
    EmplaceRangeMeaning(m, oa, ob, na);
  }

  // ---------------------------------------------------------------------
  // Lookups

  /** The number a cell's directory is named after. */
  function Target(remap: map<int, int>, c: int): int
  {
    if c in remap then remap[c] else c
  }

  /** getOutDir (Control.cxx:606-618): the base name followed by the decimal
      number of the cell, or of the cell it is remapped to. */
  function OutDir(s: Setup, c: int): (r: string)
    ensures |s.outDirBase| < |r| && r[..|s.outDirBase|] == s.outDirBase
    ensures ParseInt(r[|s.outDirBase|..]) == Some(Target(s.cellReMap, c))
  {
    var r := s.outDirBase + IntToString(Target(s.cellReMap, c));
    assert r[|s.outDirBase|..] == IntToString(Target(s.cellReMap, c));
    ParseIntToString(Target(s.cellReMap, c));
    r
  }

  /** Two cells share an output directory exactly when they are named after
      the same number; in particular two unmapped cells never do. */
  lemma OutDirShared(s: Setup, a: int, b: int)
    ensures OutDir(s, a) == OutDir(s, b) <==> Target(s.cellReMap, a) == Target(s.cellReMap, b)
  {
    if OutDir(s, a) == OutDir(s, b) {
      var n := |s.outDirBase|;
      assert OutDir(s, a)[n..] == OutDir(s, b)[n..];
    }
  }

  /** getCellMat (Control.cxx:589-603): the material of a cell, or
      InContainerError for a cell that has none. */
  function CellMat(s: Setup, c: int): (r: Result<int>)
    ensures r.Ok? <==> c in s.matNumber
    ensures r.Ok? ==> r.value == s.matNumber[c]
    ensures r.Fail? ==> r.fault == InContainerError
  {
    if c in s.matNumber then Ok(s.matNumber[c]) else Fail(InContainerError)
  }

  // ---------------------------------------------------------------------
  // Setters

  /** setBaseName (Control.cxx:144-156). */
  function BaseNameSpec(s: Setup, baseN: string): (r: (Setup, Option<Fault>))
    ensures r.1.Some? <==> baseN == []
    ensures r.1.Some? ==> r.0 == s && r.1.value == EmptyValue
    ensures r.1.None? ==> r.0 == s.(outDirBase := baseN)
  {
    if baseN != [] then (s.(outDirBase := baseN), None) else (s, Some(EmptyValue))
  }

  /** The first token's number, as StrFunc::section reads a double. */
  function Leading(line: seq<Tok>): Option<real>
  {
    if |line| > 0 then line[0].num else None
  }

  /** procNormalization (Control.cxx:419-440). */
  function NormalizationSpec(s: Setup, tag: string, line: seq<Tok>): (Setup, Option<Fault>)
  {
    match Leading(line)
    case None => (s, None)
    case Some(v) =>
      if tag == "snorm" then (s.(srcNorm := v), None)
      else if tag == "hnorm" then (s.(htapeNorm := v), None)
      else (s, Some(InContainerError))
  }

  /** With a number, `snorm` and `hnorm` set their own normalisation and
      nothing else, and any other tag is rejected with nothing changed;
      without a number nothing happens. */
  lemma NormalizationMeaning(s: Setup, tag: string, line: seq<Tok>)
    ensures var (r, f) := NormalizationSpec(s, tag, line);
      (f.Some? <==> Leading(line).Some? && tag != "snorm" && tag != "hnorm")
      && (f.Some? ==> r == s && f.value == InContainerError)
      && (Leading(line).None? ==> r == s)
      && r.(srcNorm := s.srcNorm, htapeNorm := s.htapeNorm) == s
      && (Leading(line).Some? && tag == "snorm" ==> r.srcNorm == Leading(line).value && r.htapeNorm == s.htapeNorm)
      && (Leading(line).Some? && tag == "hnorm" ==> r.htapeNorm == Leading(line).value && r.srcNorm == s.srcNorm)
  {
  }

  /** The tags of the files section. */
  datatype FileTag = Library | DName | MatFile | OutFiles | HtapeFiles | Program | UnknownTag

  /** The files-section tag a word names. */
  function FileTagOf(tag: string): FileTag
  {
    if tag == "library" then Library
    else if tag == "dname" then DName
    else if tag == "mat_file" then MatFile
    else if tag == "mcnpx_outp" then OutFiles
    else if tag == "mcnpx_histp" then HtapeFiles
    else if tag == "cinder_exe" || tag == "htape_exe" || tag == "tabcode_exe" then Program
    else UnknownTag
  }

  /** procFiles (Control.cxx:339-416): the first token is the component.
      `library` requires an existing path (FileError(0) otherwise), `dname`
      sets the base name, `mat_file` the material file, and `mcnpx_outp`
      and `mcnpx_histp` append the component and every further token to
      their file list. The three program tags set the program runner,
      which is not part of this model; any other tag is rejected. */
  function FilesSpec(s: Setup, tag: FileTag, line: seq<Tok>, env: Env): (Setup, Option<Fault>)
  {
    if line == [] then (s, None)
    else
      var component := line[0].text;
      match tag
      case Library =>
        if component in env.existing then (s.(libraryPath := component), None)
        else (s, Some(FileError(0)))
      case DName => BaseNameSpec(s, component)
      case MatFile => (s.(matFile := component), None)
      case OutFiles => (s.(mcnpOFiles := s.mcnpOFiles + [component] + Texts(line[1..])), None)
      case HtapeFiles => (s.(mcnpHFiles := s.mcnpHFiles + [component] + Texts(line[1..])), None)
      case Program => (s, None)
      case UnknownTag => (s, Some(InContainerError))
  }

  /** An output-files line lists every one of its tokens, in order, after
      the files already listed, and touches nothing else. */
  lemma {:induction false} OutFilesListed(s: Setup, line: seq<Tok>, env: Env)
    requires line != []
    ensures FilesSpec(s, OutFiles, line, env) == (s.(mcnpOFiles := s.mcnpOFiles + Texts(line)), None)
  {
    assert [line[0].text] + Texts(line[1..]) == Texts(line);
    assert s.mcnpOFiles + [line[0].text] + Texts(line[1..]) == s.mcnpOFiles + Texts(line);
  }

  /** The same for the htape files. */
  lemma {:induction false} HtapeFilesListed(s: Setup, line: seq<Tok>, env: Env)
    requires line != []
    ensures FilesSpec(s, HtapeFiles, line, env) == (s.(mcnpHFiles := s.mcnpHFiles + Texts(line)), None)
  {
    assert [line[0].text] + Texts(line[1..]) == Texts(line);
    assert s.mcnpHFiles + [line[0].text] + Texts(line[1..]) == s.mcnpHFiles + Texts(line);
  }

  // ---------------------------------------------------------------------
  // procCellList

  /** Emplacing each cell of a tally with its number as its name and a unit
      volume (Control.cxx:316-325). */
  function AddTallyCellsSpec(vn: map<int, string>, vs: map<int, real>, cells: seq<int>): (map<int, string>, map<int, real>)
    decreases |cells|
  {
    if cells == [] then (vn, vs)
    else AddTallyCellsSpec(Emplace(vn, cells[0], IntToString(cells[0])), Emplace(vs, cells[0], 1.0), cells[1..])
  }

  /** Tally cells are added without overwriting any cell already known, and
      every cell of the tally ends up known. */
  lemma {:induction false} AddTallyCellsMeaning(vn: map<int, string>, vs: map<int, real>, cells: seq<int>)
    ensures var (rn, rs) := AddTallyCellsSpec(vn, vs, cells);
      (forall k :: k in rn <==> k in vn || k in cells)
      && (forall k :: k in rs <==> k in vs || k in cells)
      && (forall k :: k in vn ==> rn[k] == vn[k])
      && (forall k :: k in vs ==> rs[k] == vs[k])
    decreases |cells|
  {
    if cells != [] {
      AddTallyCellsMeaning(Emplace(vn, cells[0], IntToString(cells[0])), Emplace(vs, cells[0], 1.0), cells[1..]);
      assert forall k :: k in cells <==> k == cells[0] || k in cells[1..];
    }
  }

  /** What a cell-list line asks for. */
  datatype CellLine = Register(c: int, v: real) | TallyRequest(file: string, n: int) | NoCells

  /** The reads of procCellList (Control.cxx:263-277): `cellN volume`, or
      `tally file n`. A successful integer read consumes its token even
      when the volume read after it fails, so `5 tally f 4` is also a
      tally request. */
  function ClassifyCellLine(line: seq<Tok>): CellLine
  {
    var first := if |line| > 0 then ParseInt(line[0].text) else None;
    var rest := if first.Some? then line[1..] else line;
    if first.Some? && Leading(rest).Some? then Register(first.value, Leading(rest).value)
    else if |rest| > 2 && rest[0].text == "tally" && ParseInt(rest[2].text).Some? then
      TallyRequest(rest[1].text, ParseInt(rest[2].text).value)
    else NoCells
  }

  /** procCellList (Control.cxx:248-282). A registration of a positive cell
      number adds the cell under the group name, without overwriting; a
      tally request adds the cells of tally `n` of that file, or fails with
      FileError(n) when the file has no such tally. */
  function CellListSpec(s: Setup, name: string, cl: CellLine, env: Env): (Setup, Option<Fault>)
  {
    match cl
    case Register(c, v) =>
      if c > 0 then (s.(volName := Emplace(s.volName, c, name), vols := Emplace(s.vols, c, v)), None)
      else (s, None)
    case TallyRequest(file, n) =>
      if (file, n) in env.tallyCells then
        var (vn, vs) := AddTallyCellsSpec(s.volName, s.vols, env.tallyCells[(file, n)]);
        (s.(volName := vn, vols := vs), None)
      else (s, Some(FileError(n)))
    case NoCells => (s, None)
  }

  /** procCellList only ever adds cells: no known cell's name or volume
      changes, and only the two cell tables change. */
  lemma CellListKeeps(s: Setup, name: string, cl: CellLine, env: Env)
    ensures var r := CellListSpec(s, name, cl, env).0;
      r.(volName := s.volName, vols := s.vols) == s
      && (forall k :: k in s.volName ==> k in r.volName && r.volName[k] == s.volName[k])
      && (forall k :: k in s.vols ==> k in r.vols && r.vols[k] == s.vols[k])
  {
    if cl.TallyRequest? && (cl.file, cl.n) in env.tallyCells {
      AddTallyCellsMeaning(s.volName, s.vols, env.tallyCells[(cl.file, cl.n)]);
    }
  }

  /** A line `cellN volume` asks to register that cell with that volume;
      a positive cell is then registered exactly, unless it was already,
      and a cell number zero or below registers nothing. */
  lemma CellListRegisters(s: Setup, name: string, line: seq<Tok>, env: Env, c: int, v: real)
    requires |line| > 1 && ParseInt(line[0].text) == Some(c) && line[1].num == Some(v)
    ensures ClassifyCellLine(line) == Register(c, v)
    ensures var (r, f) := CellListSpec(s, name, Register(c, v), env);
      f.None?
      && (c > 0 ==> r.volName.Keys == s.volName.Keys + {c} && r.vols.Keys == s.vols.Keys + {c})
      && (c > 0 && c !in s.volName ==> r.volName[c] == name)
      && (c > 0 && c !in s.vols ==> r.vols[c] == v)
      && (c <= 0 ==> r == s)
  {
  }

  // ---------------------------------------------------------------------
  // readControlFile

  /** The section names of a control file. */
  const KeyWords: set<string> :=
    {"title_lines", "files", "run_options", "cinder_options", "normalization", "history", "cell_list"}

  /** The key before the first section name is the empty string; after it,
      always a section name. */
  predicate KeyOk(key: string) { key == "" || key in KeyWords }

  /** The sections whose lines have a handler; every other key, including
      the never-set `cell_remap`, is ignored. */
  datatype Section = Files | CinderOptions | Normalization | HistorySection | CellList | Ignored

  function SectionOf(key: string): Section
  {
    if key == "files" then Files
    else if key == "cinder_options" then CinderOptions
    else if key == "normalization" then Normalization
    else if key == "history" then HistorySection
    else if key == "cell_list" then CellList
    else Ignored
  }

  /** The handler of one non-section line under `key`
      (Control.cxx:468-506). Title and run-option lines, the never-set
      `cell_remap` key, and lines before the first section change nothing. */
  function Handle(s: Setup, sec: Section, w: string, rest: seq<Tok>, env: Env): (Setup, Option<Fault>)
  {
    match sec
    case Files => FilesSpec(s, FileTagOf(w), rest, env)
    case CinderOptions => (s.(opt := S.AddStringSpec(s.opt, w, rest)), None)
    case Normalization => NormalizationSpec(s, w, rest)
    case HistorySection =>
      var (h, f) := H.AddLineSpec(s.history, w, rest, env.l0);
      (s.(history := h), f)
    case CellList => CellListSpec(s, w, ClassifyCellLine(rest), env)
    case Ignored => (s, None)
  }

  /** The lines of a control file from the current key on: a line whose
      first word is a section name switches to that section, any other
      non-empty line goes to the current section's handler, and the first
      exception ends the read with the state reached so far. */
  function ReadLines(s: Setup, key: string, lines: seq<seq<Tok>>, env: Env): (r: (Setup, Option<Fault>))
    decreases |lines|
  {
    if lines == [] then (s, None)
    else if lines[0] == [] then ReadLines(s, key, lines[1..], env)
    else
      var w := lines[0][0].text;
      if w in KeyWords then ReadLines(s, w, lines[1..], env)
      else
        var (s', f) := Handle(s, SectionOf(key), w, lines[0][1..], env);
        if f.Some? then (s', f) else ReadLines(s', key, lines[1..], env)
  }

  /** readControlFile (Control.cxx:443-517) over the lines of the file; a
      file that is not open gives no lines. */
  function ReadControlSpec(s: Setup, isOpen: bool, lines: seq<seq<Tok>>, env: Env): (Setup, Option<Fault>)
  {
    if isOpen then ReadLines(s, "", lines, env) else (s, None)
  }

  /** No handler changes the renumbering map or the material table. */
  lemma HandleKeeps(s: Setup, sec: Section, w: string, rest: seq<Tok>, env: Env)
    ensures var r := Handle(s, sec, w, rest, env).0;
      r.cellReMap == s.cellReMap && r.matNumber == s.matNumber
  {
    if sec == Files {
      FilesKeeps(s, FileTagOf(w), rest, env);
    } else if sec == CellList {
      CellListKeeps(s, w, ClassifyCellLine(rest), env);
    }
  }

  /** A files line changes neither the renumbering map nor the materials. */
  lemma FilesKeeps(s: Setup, tag: FileTag, line: seq<Tok>, env: Env)
    ensures var r := FilesSpec(s, tag, line, env).0;
      r.cellReMap == s.cellReMap && r.matNumber == s.matNumber
  {
  }

  /** No control file line changes the cell renumbering map, the material
      table or the file names outside the files section. */
  lemma {:induction false} ReadKeepsRemap(s: Setup, key: string, lines: seq<seq<Tok>>, env: Env)
    ensures var r := ReadLines(s, key, lines, env).0;
      r.cellReMap == s.cellReMap && r.matNumber == s.matNumber
    decreases |lines|
  {
    if lines != [] {
      if lines[0] == [] {
        ReadKeepsRemap(s, key, lines[1..], env);
      } else {
        var w := lines[0][0].text;
        if w in KeyWords {
          ReadKeepsRemap(s, w, lines[1..], env);
        } else {
          var (s', f) := Handle(s, SectionOf(key), w, lines[0][1..], env);
          HandleKeeps(s, SectionOf(key), w, lines[0][1..], env);
          if f.None? {
            ReadKeepsRemap(s', key, lines[1..], env);
          }
        }
      }
    }
  }

  /** Lines read before the first section name change nothing. */
  lemma {:induction false} ReadBeforeSections(s: Setup, lines: seq<seq<Tok>>, env: Env)
    requires forall i :: 0 <= i < |lines| ==> lines[i] == [] || lines[i][0].text !in KeyWords
    ensures ReadLines(s, "", lines, env) == (s, None)
    decreases |lines|
  {
    if lines != [] {
      ReadBeforeSections(s, lines[1..], env);
    }
  }

  /** A section name on a line of its own switches sections and changes
      nothing else. */
  lemma ReadSwitch(s: Setup, key: string, w: string, lines: seq<seq<Tok>>, env: Env)
    requires w in KeyWords
    ensures ReadLines(s, key, [[Tok(w, None)]] + lines, env) == ReadLines(s, w, lines, env)
  {
    assert ([[Tok(w, None)]] + lines)[1..] == lines;
  }

  // ---------------------------------------------------------------------
  // Assignment

  /** operator= as written (Control.cxx:91-117): every member but htapeNorm
      takes the other controller's value. */
  function AssignAsWritten(self: Setup, a: Setup): Setup
  {
    a.(htapeNorm := self.htapeNorm)
  }

  /** As written, assigning a controller whose hnorm was read from its
      control file to a fresh one keeps the fresh one's -1.0, unlike the
      copy constructor (Control.cxx:76-88), which copies it. */
  lemma AssignDropsHtapeNorm(n: real)
    ensures var a := Initial(n).(htapeNorm := 2.0);
      AssignAsWritten(Initial(n), a) != a && AssignAsWritten(Initial(n), a).htapeNorm == -1.0
  {
  }

  // ---------------------------------------------------------------------
  // The controller object

  class Control {
    var libraryPath: string
    var matFile: string
    var mcnpOFiles: seq<string>
    var mcnpHFiles: seq<string>
    var outDirBase: string
    var opt: S.Options
    var htapeNorm: real
    var srcNorm: real
    var volName: map<int, string>
    var vols: map<int, real>
    var matNumber: map<int, int>
    var cellReMap: map<int, int>
    var history: H.Lists

    function Value(): Setup
      reads this
    {
      Setup(libraryPath, matFile, mcnpOFiles, mcnpHFiles, outDirBase, opt, htapeNorm, srcNorm,
            volName, vols, matNumber, cellReMap, history)
    }

    /** The constructor (Control.cxx:68-74); `srcNorm0` is the value the
        uninitialised source normalisation happens to hold. */
    constructor (srcNorm0: real)
      ensures Value() == Initial(srcNorm0)
    {
      libraryPath, matFile, mcnpOFiles, mcnpHFiles := DefaultLibrary, "", [], [];
      outDirBase, opt, htapeNorm, srcNorm := "Cell", S.Default, -1.0, srcNorm0;
      volName, vols, matNumber, cellReMap, history := map[], map[], map[], map[], H.Lists([], [], []);
    }

    /** The assignment operator, copying every member as the copy
        constructor does (Control.cxx:76-117). */
    method Assign(a: Control)
      modifies this
      ensures Value() == old(a.Value())
    {
      if a != this {
        libraryPath, matFile, mcnpOFiles, mcnpHFiles := a.libraryPath, a.matFile, a.mcnpOFiles, a.mcnpHFiles;
        outDirBase, opt, htapeNorm, srcNorm := a.outDirBase, a.opt, a.htapeNorm, a.srcNorm;
        volName, vols, matNumber, cellReMap, history := a.volName, a.vols, a.matNumber, a.cellReMap, a.history;
      }
    }

    /** procCellReMap (Control.cxx:208-244). */
    method ProcCellReMap(name: string, line: string)
      modifies this
      ensures Value() == old(Value()).(cellReMap := CellReMapSpec(old(cellReMap), name, line))
    {
      var pos := Find(name, '-');
      if pos == |name| || pos == 0 {
        var oa, na := ParseInt(name), ParseInt(line);
        if oa.Some? && na.Some? && oa.value != na.value {
          cellReMap := Emplace(cellReMap, oa.value, na.value);
        }
        return;
      }
      var oa, ob, na := ParseInt(name[..pos]), ParseInt(name[pos + 1..]), ParseInt(line);
      if oa.Some? && ob.Some? && na.Some? {
        var a, n := oa.value, na.value;
        while a <= ob.value
          invariant EmplaceRange(cellReMap, a, ob.value, n) == CellReMapSpec(old(cellReMap), name, line)
          invariant Value() == old(Value()).(cellReMap := cellReMap)
          decreases ob.value - a
        {
          cellReMap := Emplace(cellReMap, a, n);
          a, n := a + 1, n + 1;
        }
      }
    }

    /** getOutDir (Control.cxx:606-618). */
    function GetOutDir(c: int): string
      reads this
    {
      OutDir(Value(), c)
    }

    /** getCellMat (Control.cxx:589-603). */
    function GetCellMat(c: int): Result<int>
      reads this
    {
      CellMat(Value(), c)
    }

    /** setBaseName (Control.cxx:144-156). */
    method SetBaseName(baseN: string) returns (fault: Option<Fault>)
      modifies this
      ensures (Value(), fault) == BaseNameSpec(old(Value()), baseN)
    {
      if baseN != [] {
        outDirBase := baseN;
        return None;
      }
      return Some(EmptyValue);
    }

    /** procNormalization (Control.cxx:419-440). */
    method ProcNormalization(tag: string, line: seq<Tok>) returns (fault: Option<Fault>)
      modifies this
      ensures (Value(), fault) == NormalizationSpec(old(Value()), tag, line)
    {
      fault := None;
      if |line| > 0 && line[0].num.Some? {
        var v := line[0].num.value;
        if tag == "snorm" {
          srcNorm := v;
        } else if tag == "hnorm" {
          htapeNorm := v;
        } else {
          fault := Some(InContainerError);
        }
      }
    }

    /** procFiles (Control.cxx:339-416). */
    method ProcFiles(tag: string, line: seq<Tok>, env: Env) returns (fault: Option<Fault>)
      modifies this
      ensures (Value(), fault) == FilesSpec(old(Value()), FileTagOf(tag), line, env)
    {
      fault := None;
      if line == [] {
        return;
      }
      var component := line[0].text;
      var rest := line[1..];
      if tag == "library" {
        if component in env.existing {
          libraryPath := component;
        } else {
          fault := Some(FileError(0));
        }
      } else if tag == "dname" {
        fault := SetBaseName(component);
      } else if tag == "mat_file" {
        matFile := component;
      } else if tag == "mcnpx_outp" {
        mcnpOFiles := mcnpOFiles + [component] + Texts(rest);
      } else if tag == "mcnpx_histp" {
        mcnpHFiles := mcnpHFiles + [component] + Texts(rest);
      } else if !(tag == "cinder_exe" || tag == "htape_exe" || tag == "tabcode_exe") {
        fault := Some(InContainerError);
      }
    }

    /** procCellList (Control.cxx:248-282). */
    method ProcCellList(name: string, line: seq<Tok>, env: Env) returns (fault: Option<Fault>)
      modifies this
      ensures (Value(), fault) == CellListSpec(old(Value()), name, ClassifyCellLine(line), env)
    {
      fault := None;
      var first := if |line| > 0 then ParseInt(line[0].text) else None;
      var rest := if first.Some? then line[1..] else line;
      if first.Some? && |rest| > 0 && rest[0].num.Some? {
        if first.value > 0 {
          volName := Emplace(volName, first.value, name);
          vols := Emplace(vols, first.value, rest[0].num.value);
        }
      } else if |rest| > 2 && rest[0].text == "tally" && ParseInt(rest[2].text).Some? {
        var key := (rest[1].text, ParseInt(rest[2].text).value);
        if key in env.tallyCells {
          var (vn, vs) := AddTallyCellsSpec(volName, vols, env.tallyCells[key]);
          volName, vols := vn, vs;
        } else {
          fault := Some(FileError(key.1));
        }
      }
    }

    /** readControlFile (Control.cxx:443-517) over the lines of the file. */
    method ReadControlFile(isOpen: bool, lines: seq<seq<Tok>>, env: Env) returns (fault: Option<Fault>)
      modifies this
      ensures (Value(), fault) == ReadControlSpec(old(Value()), isOpen, lines, env)
    {
      fault := None;
      if !isOpen {
        return;
      }
      var key := "";
      var todo := lines;
      while todo != []
        invariant KeyOk(key) && fault.None?
        invariant ReadLines(old(Value()), "", lines, env) == ReadLines(Value(), key, todo, env)
        decreases |todo|
      {
        var line := todo[0];
        todo := todo[1..];
        if line != [] {
          var w := line[0].text;
          var rest := line[1..];
          if w in KeyWords {
            key := w;
          } else if key == "files" {
            fault := ProcFiles(w, rest, env);
          } else if key == "cinder_options" {
            opt := S.AddStringSpec(opt, w, rest);
          } else if key == "normalization" {
            fault := ProcNormalization(w, rest);
          } else if key == "history" {
            var (h, f) := H.AddLineSpec(history, w, rest, env.l0);
            history := h;
            fault := f;
          } else if key == "cell_list" {
            fault := ProcCellList(w, rest, env);
          }
          if fault.Some? {
            return;
          }
        }
      }
    }
  }
}
