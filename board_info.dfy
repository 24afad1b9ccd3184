/** UDOO board identification: the board model from the device-tree model
    string, the unique id from the two OTP words, the `Revision` entry of
    the cpuinfo text, and the model's display name. File contents are
    inputs: each read either yields the file's text or fails. */
module BoardInfo {
  import opened Common

  // ---------------------------------------------------------------------
  // Strings

  /** The characters `strings.TrimSpace` removes: Unicode white space. */
  predicate IsSpace(c: char) {
    c == ' ' || c == '\t' || c == '\n' || c == '\r' || c == '\U{B}' || c == '\U{C}'
    || c == '\U{85}' || c == '\U{A0}' || c == '\U{1680}'
    || ('\U{2000}' <= c <= '\U{200A}') || c == '\U{2028}' || c == '\U{2029}'
    || c == '\U{202F}' || c == '\U{205F}' || c == '\U{3000}'
  }

  ghost predicate AllSpace(s: string) {
    forall i :: 0 <= i < |s| ==> IsSpace(s[i])
  }

  /** `s` without its leading white space: a suffix of `s`, the part cut off
      is all white space and what is left does not start with any. */
  function TrimLeft(s: string): string {
    if s != [] && IsSpace(s[0]) then TrimLeft(s[1..]) else s
  }

  lemma {:induction false} TrimLeftFacts(s: string)
    ensures var r := TrimLeft(s);
      |r| <= |s| && r == s[|s| - |r|..] && AllSpace(s[..|s| - |r|])
      && (r == [] || !IsSpace(r[0]))
  {
    if s != [] && IsSpace(s[0]) {
      TrimLeftFacts(s[1..]);
      var r := TrimLeft(s[1..]);
      assert s[1..][..|s| - 1 - |r|] == s[1..|s| - |r|];
    }
  }

  /** `s` without its trailing white space. */
  function TrimRight(s: string): string {
    if s != [] && IsSpace(s[|s| - 1]) then TrimRight(s[..|s| - 1]) else s
  }

  lemma {:induction false} TrimRightFacts(s: string)
    ensures var r := TrimRight(s);
      |r| <= |s| && r == s[..|r|] && AllSpace(s[|r|..])
      && (r == [] || !IsSpace(r[|r| - 1]))
  {
    if s != [] && IsSpace(s[|s| - 1]) {
      TrimRightFacts(s[..|s| - 1]);
      var r := TrimRight(s[..|s| - 1]);
      assert s[..|s| - 1][..|r|] == s[..|r|];
      forall k | |r| <= k < |s| ensures IsSpace(s[k]) {
        if k < |s| - 1 {
          assert s[k] == s[..|s| - 1][|r|..][k - |r|];
        }
      }
    }
  }

  function TrimSpace(s: string): string {
    TrimRight(TrimLeft(s))
  }

  /** The trimmed string is the slice `s[i..j]` of the input, cut only at
      white space, that neither starts nor ends with white space. */
  lemma TrimSpaceSlice(s: string) returns (i: nat, j: nat)
    ensures i <= j <= |s| && TrimSpace(s) == s[i..j]
    ensures AllSpace(s[..i]) && AllSpace(s[j..])
    ensures TrimSpace(s) == [] || (!IsSpace(s[i]) && !IsSpace(s[j - 1]))
  {
    var l := TrimLeft(s);
    var r := TrimRight(l);
    TrimLeftFacts(s);
    TrimRightFacts(l);
    i := |s| - |l|;
    j := i + |r|;
    assert r == l[..|r|];
    assert l == s[i..];
    assert s[j..] == l[|r|..];
    TrimRightKeeps(l);
  }

  /** Trimming twice is trimming once. */
  lemma TrimSpaceIdempotent(s: string)
    ensures TrimSpace(TrimSpace(s)) == TrimSpace(s)
  {
    var r := TrimSpace(s);
    TrimLeftFacts(s);
    TrimRightFacts(TrimLeft(s));
    TrimRightKeeps(TrimLeft(s));
    assert TrimLeft(r) == r;
    assert TrimRight(r) == r;
  }

  lemma TrimRightKeeps(s: string)
    requires s == [] || !IsSpace(s[0])
    ensures var r := TrimRight(s); r == [] || !IsSpace(r[0])
  {
    TrimRightFacts(s);
  }

  /** `strings.Split` with a one-character separator: the pieces between the
      separators, one more than there are separators. */
  function Split(s: string, sep: char): (parts: seq<string>)
    ensures |parts| == Count(s, sep) + 1
    ensures forall k :: 0 <= k < |parts| ==> sep !in parts[k]
  {
    if s == [] then [[]]
    else
      var rest := Split(s[1..], sep);
      if s[0] == sep then [[]] + rest
      else [[s[0]] + rest[0]] + rest[1..]
  }

  /** The number of occurrences of `c` in `s`. */
  function Count(s: string, c: char): nat {
    if s == [] then 0 else (if s[0] == c then 1 else 0) + Count(s[1..], c)
  }

  /** The pieces joined back with the separator. */
  function Join(parts: seq<string>, sep: char): string
    requires parts != []
  {
    if |parts| == 1 then parts[0] else parts[0] + [sep] + Join(parts[1..], sep)
  }

  /** Splitting loses nothing: joining the pieces gives the string back. */
  lemma {:induction false} SplitJoin(s: string, sep: char)
    ensures Join(Split(s, sep), sep) == s
  {
    if s != [] {
      var rest := Split(s[1..], sep);
      SplitJoin(s[1..], sep);
      if s[0] == sep {
        assert Split(s, sep)[1..] == rest;
      } else {
        var parts := Split(s, sep);
        if |rest| > 1 {
          assert parts[1..] == rest[1..];
          assert Join(rest, sep) == rest[0] + [sep] + Join(rest[1..], sep);
        }
      }
    }
  }

  /** Pieces free of the separator come back from splitting their join. */
  lemma {:induction false} JoinSplit(parts: seq<string>, sep: char)
    requires parts != []
    requires forall k :: 0 <= k < |parts| ==> sep !in parts[k]
    ensures Split(Join(parts, sep), sep) == parts
    decreases |parts|, |parts[0]|
  {
    if |parts| == 1 {
      SplitPlain(parts[0], sep);
    } else {
      var rest := parts[1..];
      JoinSplit(rest, sep);
      var tail := Join(rest, sep);
      if parts[0] == [] {
        assert Join(parts, sep) == [sep] + tail;
        SplitFirst(sep, tail, sep);
        assert parts == [[]] + rest;
      } else {
        var shorter := [parts[0][1..]] + rest;
        JoinSplit(shorter, sep);
        JoinSplitCons(parts, sep);
      }
    }
  }

  /** The step of `JoinSplit` that moves the first character of the first
      piece out of the join. */
  lemma JoinSplitCons(parts: seq<string>, sep: char)
    requires |parts| > 1 && parts[0] != [] && sep !in parts[0]
    requires Split(Join([parts[0][1..]] + parts[1..], sep), sep) == [parts[0][1..]] + parts[1..]
    ensures Split(Join(parts, sep), sep) == parts
  {
    var c := parts[0][0];
    assert c in parts[0];
    var shorter := [parts[0][1..]] + parts[1..];
    JoinHead(parts, sep);
    SplitFirst(c, Join(shorter, sep), sep);
    assert Split(Join(parts, sep), sep) == [[c] + parts[0][1..]] + parts[1..];
    assert parts[0] == [c] + parts[0][1..];
    assert parts == [parts[0]] + parts[1..];
  }

  lemma JoinHead(parts: seq<string>, sep: char)
    requires |parts| > 1 && parts[0] != []
    ensures Join(parts, sep) == [parts[0][0]] + Join([parts[0][1..]] + parts[1..], sep)
  {
    var shorter := [parts[0][1..]] + parts[1..];
    assert shorter[1..] == parts[1..];
    assert parts[0] == [parts[0][0]] + parts[0][1..];
  }

  /** Splitting a string whose first character is `c`. */
  lemma SplitFirst(c: char, s: string, sep: char)
    ensures c == sep ==> Split([c] + s, sep) == [[]] + Split(s, sep)
    ensures c != sep ==> Split([c] + s, sep) == [[c] + Split(s, sep)[0]] + Split(s, sep)[1..]
  {
    assert ([c] + s)[1..] == s;
  }

  /** A string without the separator splits into itself. */
  lemma {:induction false} SplitPlain(s: string, sep: char)
    requires sep !in s
    ensures Split(s, sep) == [s]
  {
    if s != [] {
      SplitPlain(s[1..], sep);
      assert s == [s[0]] + s[1..];
    }
  }

  // ---------------------------------------------------------------------
  // cpuinfo: the Revision entry

  /** A cpuinfo line splits on ':' into exactly a key and a value. */
  predicate IsEntry(line: string) {
    |Split(line, ':')| == 2
  }

  /** The line is the `Revision` entry. */
  predicate IsRevision(line: string) {
    IsEntry(line) && TrimSpace(Split(line, ':')[0]) == "Revision"
  }

  function RevisionValue(line: string): string
    requires IsEntry(line)
  {
    TrimSpace(Split(line, ':')[1])
  }

  /** The trimmed value of the first `Revision` entry, or "". */
  function FindRevision(lines: seq<string>): string {
    if lines == [] then ""
    else if IsRevision(lines[0]) then RevisionValue(lines[0])
    else FindRevision(lines[1..])
  }

  /** The revision of a cpuinfo read: the read's error, or the first
      `Revision` entry among its lines (or "" with no error). */
  function GetRevision(cpuinfo: Result<string, string>): (Option<string>, string) {
    match cpuinfo
    case Err(e) => (Some(e), "")
    case Ok(text) => (None, FindRevision(Split(text, '\n')))
  }

  /** The first `Revision` line decides the result. */
  lemma {:induction false} FindRevisionFirst(lines: seq<string>, i: nat)
    requires i < |lines| && IsRevision(lines[i])
    requires forall j :: 0 <= j < i ==> !IsRevision(lines[j])
    ensures FindRevision(lines) == RevisionValue(lines[i])
  {
    if i > 0 {
      var rest := lines[1..];
      assert rest[i - 1] == lines[i];
      assert forall j :: 0 <= j < i - 1 ==> rest[j] == lines[j + 1];
      FindRevisionFirst(rest, i - 1);
      FindRevisionSkip(lines);
    }
  }

  lemma FindRevisionSkip(lines: seq<string>)
    requires lines != [] && !IsRevision(lines[0])
    ensures FindRevision(lines) == FindRevision(lines[1..])
  {
  }

  /** Without a `Revision` line the result is "". */
  lemma {:induction false} FindRevisionNone(lines: seq<string>)
    requires forall j :: 0 <= j < |lines| ==> !IsRevision(lines[j])
    ensures FindRevision(lines) == ""
  {
    if lines != [] {
      FindRevisionNone(lines[1..]);
    }
  }

  /** A non-empty result always comes from the first `Revision` line, the
      line `i`. */
  lemma {:induction false} FindRevisionSource(lines: seq<string>) returns (i: nat)
    requires FindRevision(lines) != ""
    ensures i < |lines| && IsRevision(lines[i])
    ensures forall j :: 0 <= j < i ==> !IsRevision(lines[j])
    ensures FindRevision(lines) == RevisionValue(lines[i])
  {
    if IsRevision(lines[0]) {
      i := 0;
    } else {
      var rest := lines[1..];
      FindRevisionSkip(lines);
      var k := FindRevisionSource(rest);
      i := k + 1;
      assert rest[k] == lines[i];
      NoRevisionBefore(lines, i);
    }
  }

  lemma NoRevisionBefore(lines: seq<string>, i: nat)
    requires 0 < i <= |lines| && !IsRevision(lines[0])
    requires forall j :: 0 <= j < i - 1 ==> !IsRevision(lines[1..][j])
    ensures forall j :: 0 <= j < i ==> !IsRevision(lines[j])
  {
    forall j | 0 < j < i
      ensures !IsRevision(lines[j])
    {
      assert lines[1..][j - 1] == lines[j];
    }
  }

  /** A line with two or more colons is never taken as an entry. */
  lemma ManyColonsSkipped(line: string)
    requires Count(line, ':') >= 2
    ensures !IsEntry(line) && !IsRevision(line)
  {
  }

  /** A failed read yields its error and an empty revision. */
  lemma GetRevisionError(e: string)
    ensures GetRevision(Err(e)) == (Some(e), "")
  {
  }

  // ---------------------------------------------------------------------
  // The board model

  /** The board models (`ModelT`, numbered in declaration order). */
  const ModelNeoBasic: int := 0
  const ModelNeoExtend: int := 1
  const ModelNeoFull: int := 2
  const ModelQuad: int := 3
  const ModelDual: int := 4
  const ModelX86: int := 5
  const ModelSecosbcA62: int := 6

  /** The board information; the zero value has model 0 (Neo Basic). */
  datatype Info = Info(model: int, hasM4: bool, hasLvds15: bool, uid: string)

  const ZeroInfo := Info(0, false, false, "")

  /** The model strings the driver recognises and the information each
      selects: model, M4 core, 15-inch LVDS support. */
  const ModelTable: map<string, Info> := map[
    "UDOO Quad Board" := Info(ModelQuad, false, true, ""),
    "UDOO Dual-lite Board" := Info(ModelDual, false, true, ""),
    "UDOO Neo Extended" := Info(ModelNeoExtend, true, false, ""),
    "UDOO Neo Full" := Info(ModelNeoFull, true, false, ""),
    "UDOO Neo Basic Kickstarter" := Info(ModelNeoBasic, true, false, ""),
    "UDOO Neo Basic" := Info(ModelNeoBasic, true, false, "")]

  /** The information the trimmed model string selects; any other string
      leaves the zero value. */
  function Classify(str: string): Info {
    if str in ModelTable then ModelTable[str] else ZeroInfo
  }

  /** The board's unique id: both OTP words trimmed and concatenated, or ""
      when either read fails. */
  function Uid(cfg0: Result<string, string>, cfg1: Result<string, string>): string {
    if cfg0.Ok? && cfg1.Ok? then TrimSpace(cfg0.value) + TrimSpace(cfg1.value) else ""
  }

  /** The result of GetBoardInfo. */
  datatype Board = Board(info: Info, err: Option<string>)

  /** The board information from the model file and the two OTP words. A
      failed model read yields the zero information and the error; after a
      successful one the error is always nil (the OTP reads have errors of
      their own, which are dropped). */
  function GetBoardInfo(model: Result<string, string>, cfg0: Result<string, string>,
                        cfg1: Result<string, string>): Board {
    match model
    case Err(e) => Board(ZeroInfo, Some(e))
    case Ok(text) =>
      var info := Classify(TrimSpace(text));
      Board(info.(uid := Uid(cfg0, cfg1)), None)
  }

  /** The model table. */
  lemma ClassifyTable()
    ensures Classify("UDOO Quad Board") == Info(ModelQuad, false, true, "")
    ensures Classify("UDOO Dual-lite Board") == Info(ModelDual, false, true, "")
    ensures Classify("UDOO Neo Extended") == Info(ModelNeoExtend, true, false, "")
    ensures Classify("UDOO Neo Full") == Info(ModelNeoFull, true, false, "")
    ensures Classify("UDOO Neo Basic") == Info(ModelNeoBasic, true, false, "")
    ensures Classify("UDOO Neo Basic Kickstarter") == Info(ModelNeoBasic, true, false, "")
  {
  }

  /** A board has an M4 core exactly when it lacks 15-inch LVDS, unless the
      model string is unknown, which gives neither. */
  lemma ClassifyFlags(str: string)
    ensures var i := Classify(str);
      i == ZeroInfo || (i.hasM4 <==> !i.hasLvds15)
    ensures Classify(str).uid == ""
    ensures Classify(str).model in {ModelNeoBasic, ModelNeoExtend, ModelNeoFull, ModelQuad, ModelDual}
  {
  }

  /** An unknown model string leaves the zero value, which reads as a Neo
      Basic without an M4 core. */
  lemma ClassifyUnknown(str: string)
    requires str !in {"UDOO Quad Board", "UDOO Dual-lite Board", "UDOO Neo Extended",
      "UDOO Neo Full", "UDOO Neo Basic Kickstarter", "UDOO Neo Basic"}
    ensures Classify(str) == ZeroInfo
    ensures Classify(str).model == ModelNeoBasic && !Classify(str).hasM4
  {
  }

  /** The outcome of GetBoardInfo: the error of the model read, or the
      classified trimmed model with the OTP id and no error. */
  lemma GetBoardInfoOutcome(model: Result<string, string>, cfg0: Result<string, string>,
                            cfg1: Result<string, string>)
    ensures var b := GetBoardInfo(model, cfg0, cfg1);
      model.Err? ==> b.info == ZeroInfo && b.err == Some(model.error)
    ensures var b := GetBoardInfo(model, cfg0, cfg1);
      model.Ok? ==> (b.err == None && b.info.uid == Uid(cfg0, cfg1)
        && b.info.(uid := "") == Classify(TrimSpace(model.value)))
  {
    if model.Ok? {
      ClassifyFlags(TrimSpace(model.value));
    }
  }

  /** White space around the model string does not matter. */
  lemma GetBoardInfoTrims(text: string, cfg0: Result<string, string>, cfg1: Result<string, string>)
    ensures GetBoardInfo(Ok(TrimSpace(text)), cfg0, cfg1) == GetBoardInfo(Ok(text), cfg0, cfg1)
  {
    TrimSpaceIdempotent(text);
  }

  /** The id is the two trimmed words one after the other, and empty when
      either read fails. */
  lemma UidParts(cfg0: Result<string, string>, cfg1: Result<string, string>)
    ensures cfg0.Err? || cfg1.Err? ==> Uid(cfg0, cfg1) == ""
    ensures cfg0.Ok? && cfg1.Ok? ==>
      Uid(cfg0, cfg1)[..|TrimSpace(cfg0.value)|] == TrimSpace(cfg0.value)
      && Uid(cfg0, cfg1)[|TrimSpace(cfg0.value)|..] == TrimSpace(cfg1.value)
  {
  }

  // ---------------------------------------------------------------------
  // Model names

  const ModelNames: map<int, string> := map[
    ModelNeoBasic := "Udoo Neo basic",
    ModelNeoExtend := "Udoo Neo extend",
    ModelNeoFull := "Udoo Neo full",
    ModelX86 := "Udoo x86",
    ModelQuad := "",
    ModelDual := "",
    ModelSecosbcA62 := ""]

  /** The display name of the model: the map entry, "" when it has none. */
  function ModelName(info: Info): string {
    if info.model in ModelNames then ModelNames[info.model] else ""
  }

  /** Only the three Neo models and the x86 have a non-empty name. */
  lemma ModelNameNonEmpty(info: Info)
    ensures ModelName(info) != "" <==>
      info.model in {ModelNeoBasic, ModelNeoExtend, ModelNeoFull, ModelX86}
  {
  }

  /** The names of the models GetBoardInfo can produce: Quad and Dual boards
      have none. */
  lemma BoardModelNames(model: Result<string, string>, cfg0: Result<string, string>,
                        cfg1: Result<string, string>)
    ensures var b := GetBoardInfo(model, cfg0, cfg1);
      ModelName(b.info) == "" <==> b.info.model in {ModelQuad, ModelDual}
  {
    var b := GetBoardInfo(model, cfg0, cfg1);
    if model.Ok? {
      ClassifyFlags(TrimSpace(model.value));
    }
    assert b.info.model in {ModelNeoBasic, ModelNeoExtend, ModelNeoFull, ModelQuad, ModelDual};
    ModelNameNonEmpty(b.info);
  }
}
