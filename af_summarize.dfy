/**
 * The text side of the run summariser: CSV snapshots read into rows,
 * iteration numbers read from snapshot file names, and the attack edges
 * (with the reasons given for them) mined from a run's event log, merged
 * into the rows of an attacks table. The HTML rendering is not modelled.
 */
module AfSummarize {
  import opened Wrappers
  import opened Json
  import opened PyStr

  // ---------------------------------------------------------------------
  // CSV snapshots.

  /** A CSV row: column name to field text. */
  type Row = map<string, string>

  /** `[c.strip() for c in line.split(",")]`. */
  function Fields(line: string): (r: seq<string>)
  {
    StripAll(Split(line, ","))
  }

  /** Every piece stripped. */
  function StripAll(parts: seq<string>): (r: seq<string>)
    ensures |r| == |parts| && forall k | 0 <= k < |parts| :: r[k] == Strip(parts[k])
  {
    if parts == [] then [] else [Strip(parts[0])] + StripAll(parts[1..])
  }

  /**
   * `dict(zip(head, parts))`: pairs up to the shorter of the two, inserted
   * left to right, so a repeated column name keeps its last field.
   */
  function ZipDict(head: seq<string>, parts: seq<string>): (r: Row)
    decreases |head|
  {
    var n := if |head| < |parts| then |head| else |parts|;
    if n == 0 then map[]
    else ZipDict(head[..n - 1], parts[..n - 1])[head[n - 1] := parts[n - 1]]
  }

  /** How many pairs `zip` makes: the length of the shorter sequence. */
  function ZipLength(head: seq<string>, parts: seq<string>): nat {
    if |head| < |parts| then |head| else |parts|
  }

  /** The row's columns are the names paired with a field. */
  lemma {:induction false} ZipDictKeys(head: seq<string>, parts: seq<string>)
    ensures ZipDict(head, parts).Keys == set k | 0 <= k < ZipLength(head, parts) :: head[k]
    decreases |head|
  {
    var n := ZipLength(head, parts);
    if n > 0 {
      var h, p := head[..n - 1], parts[..n - 1];
      ZipDictKeys(h, p);
      assert ZipLength(h, p) == n - 1;
      forall x | x in ZipDict(head, parts).Keys
        ensures exists k | 0 <= k < n :: head[k] == x
      {
        if x != head[n - 1] {
          var k :| 0 <= k < n - 1 && h[k] == x;
        }
      }
      forall k | 0 <= k < n
        ensures head[k] in ZipDict(head, parts).Keys
      {
        if k < n - 1 {
          assert h[k] == head[k];
        }
      }
    }
  }

  /** A name's value is the field paired with its last occurrence. */
  lemma {:induction false} ZipDictValue(head: seq<string>, parts: seq<string>, k: nat)
    requires k < ZipLength(head, parts)
    requires forall m | k < m < ZipLength(head, parts) :: head[m] != head[k]
    ensures head[k] in ZipDict(head, parts) && ZipDict(head, parts)[head[k]] == parts[k]
    decreases |head|
  {
    var n := ZipLength(head, parts);
    if k < n - 1 {
      var h, p := head[..n - 1], parts[..n - 1];
      assert ZipLength(h, p) == n - 1;
      assert h[k] == head[k] && p[k] == parts[k];
      assert head[n - 1] != head[k];
      ZipDictValue(h, p, k);
    }
  }

  /** The data lines that give rows: those that are not blank once stripped, in order. */
  function DataLines(lines: seq<string>): (r: seq<string>)
    ensures |r| <= |lines|
  {
    if lines == [] then []
    else
      var last := lines[|lines| - 1];
      DataLines(lines[..|lines| - 1]) + (if Strip(last) == [] then [] else [last])
  }

  /** One more line of the input adds it to the data lines unless it is blank. */
  lemma DataLinesPrefix(lines: seq<string>, i: nat)
    requires i < |lines|
    ensures DataLines(lines[..i + 1])
      == DataLines(lines[..i]) + (if Strip(lines[i]) == [] then [] else [lines[i]])
  {
    assert lines[..i + 1][..i] == lines[..i];
  }

  /** A non-blank line adds its row after the rows of the lines before it. */
  lemma RowsStep(head: seq<string>, lines: seq<string>, i: nat, kept: seq<string>)
    requires i < |lines| && Strip(lines[i]) != []
    requires kept == DataLines(lines[..i])
    ensures kept + [lines[i]] == DataLines(lines[..i + 1])
    ensures RowsOf(head, kept + [lines[i]]) == RowsOf(head, kept) + [RowOf(head, lines[i])]
  {
    DataLinesPrefix(lines, i);
    RowsOfSnoc(head, kept, lines[i]);
  }

  /** A data line's row: its stripped fields zipped with the header. */
  function RowOf(head: seq<string>, line: string): Row {
    ZipDict(head, Fields(line))
  }

  /** Each data line zipped with the header. */
  function RowsOf(head: seq<string>, lines: seq<string>): (r: seq<Row>)
  {
    seq(|lines|, k requires 0 <= k < |lines| => RowOf(head, lines[k]))
  }

  /** One more data line adds its row at the end. */
  lemma RowsOfSnoc(head: seq<string>, lines: seq<string>, line: string)
    ensures RowsOf(head, lines + [line]) == RowsOf(head, lines) + [RowOf(head, line)]
  {
    var a, b := RowsOf(head, lines + [line]), RowsOf(head, lines) + [RowOf(head, line)];
    forall k | 0 <= k < |a|
      ensures a[k] == b[k]
    {
      if k < |lines| {
        assert (lines + [line])[k] == lines[k];
      }
    }
  }

  /** `read_csv_rows` on the file's text; `None` when the file does not exist. */
  function CsvRows(content: Option<string>): (r: seq<Row>)
  {
    if content.None? then []
    else
      var lines := SplitLines(content.value);
      if lines == [] then [] else RowsOf(Fields(lines[0]), DataLines(lines[1..]))
  }

  /** With no blank line, every line is a data line. */
  lemma {:induction false} DataLinesAllKept(lines: seq<string>)
    requires forall k | 0 <= k < |lines| :: Strip(lines[k]) != []
    ensures DataLines(lines) == lines
  {
    if lines != [] {
      DataLinesAllKept(lines[..|lines| - 1]);
      assert lines == lines[..|lines| - 1] + [lines[|lines| - 1]];
    }
  }

  /** A blank line is not a data line. */
  lemma {:induction false} DataLinesSkipBlank(lines: seq<string>, k: nat)
    requires k < |lines| && Strip(lines[k]) == []
    ensures |DataLines(lines)| < |lines|
  {
    if k < |lines| - 1 {
      DataLinesSkipBlank(lines[..|lines| - 1], k);
    }
  }

  /** Every non-blank line is a data line. */
  lemma {:induction false} DataLinesComplete(lines: seq<string>)
    ensures forall line | line in lines && Strip(line) != [] :: line in DataLines(lines)
  {
    if lines != [] {
      DataLinesComplete(lines[..|lines| - 1]);
      forall line | line in lines && Strip(line) != []
        ensures line in DataLines(lines)
      {
        if line != lines[|lines| - 1] {
          var k :| 0 <= k < |lines| && lines[k] == line;
          assert lines[..|lines| - 1][k] == line;
        }
      }
    }
  }

  /** Every row's columns are among the header's names. */
  lemma RowColumns(head: seq<string>, lines: seq<string>)
    ensures forall row | row in RowsOf(head, lines) :: row.Keys <= set c | c in head
  {
    var rows := RowsOf(head, lines);
    forall k | 0 <= k < |rows|
      ensures rows[k].Keys <= set c | c in head
    {
      RowKeysInHead(head, lines[k]);
    }
  }

  /** One row's columns are among the header's names. */
  lemma RowKeysInHead(head: seq<string>, line: string)
    ensures RowOf(head, line).Keys <= set c | c in head
  {
    var parts := Fields(line);
    ZipDictKeys(head, parts);
    forall x | x in ZipDict(head, parts).Keys
      ensures x in head
    {
      var k :| 0 <= k < ZipLength(head, parts) && head[k] == x;
    }
  }

  /** `read_csv_rows`: the header is the first line, blank lines are skipped, fields are stripped. */
  method ReadCsvRows(content: Option<string>) returns (rows: seq<Row>)
    ensures rows == CsvRows(content)
  {
    rows := [];
    if content.None? {
      return;
    }
    var txt := SplitLines(content.value);
    if txt == [] {
      return;
    }
    rows := ReadDataRows(Fields(txt[0]), txt[1..]);
  }

  /** The loop over the data lines: each non-blank line is zipped with the header. */
  method ReadDataRows(head: seq<string>, data: seq<string>) returns (rows: seq<Row>)
    ensures rows == RowsOf(head, DataLines(data))
  {
    rows := [];
    ghost var kept: seq<string> := [];
    var i := 0;
    while i < |data|
      invariant 0 <= i <= |data|
      invariant kept == DataLines(data[..i])
      invariant rows == RowsOf(head, kept)
    {
      var ln := data[i];
      if Strip(ln) != [] {
        RowsStep(head, data, i, kept);
        rows := rows + [RowOf(head, ln)];
        kept := kept + [ln];
      } else {
        DataLinesPrefix(data, i);
      }
      i := i + 1;
    }
    assert data[..i] == data;
  }

  // ---------------------------------------------------------------------
  // Iteration numbers in file names.

  /** `name.split("_iter")[-1].split(".csv")[0]`, read by `int`; `None` when `int` raises. */
  function IterIndex(name: string): (r: Option<int>)
  {
    ParseInt(FirstPiece(LastPiece(name, "_iter"), ".csv"))
  }

  /** `s.split(sep)[-1]`. */
  function LastPiece(s: string, sep: string): string
    requires sep != []
  {
    var pieces := Split(s, sep);
    pieces[|pieces| - 1]
  }

  /** `s.split(sep)[0]`. */
  function FirstPiece(s: string, sep: string): string
    requires sep != []
  {
    Split(s, sep)[0]
  }

  /** Joining pieces ends with the last piece, after a separator when there are several. */
  lemma {:induction false} JoinLast(parts: seq<string>, sep: string)
    requires |parts| >= 2
    ensures Join(parts, sep) == Join(parts[..|parts| - 1], sep) + sep + parts[|parts| - 1]
  {
    if |parts| > 2 {
      JoinLast(parts[1..], sep);
      assert parts[1..][..|parts| - 2] == parts[..|parts| - 1][1..];
    }
  }

  /** A separator placed between two pieces is contained in the result. */
  lemma SeparatorContained(a: string, sep: string, b: string)
    ensures Contains(a + sep + b, sep)
  {
    assert OccursAt(a + sep + b, sep, |a|) by {
      assert (a + sep + b)[|a|..|a| + |sep|] == sep;
    }
  }

  /**
   * The last piece of a split is what follows the last cut: the text before
   * it is empty when there is no separator, and otherwise ends with one.
   */
  lemma SplitLastPiece(s: string, sep: string) returns (prefix: string)
    requires sep != []
    ensures s == prefix + LastPiece(s, sep)
    ensures prefix == [] <==> !Contains(s, sep)
    ensures prefix != [] ==> |prefix| >= |sep| && prefix[|prefix| - |sep|..] == sep
    ensures !Contains(LastPiece(s, sep), sep)
  {
    var pieces := Split(s, sep);
    var tail := pieces[|pieces| - 1];
    if |pieces| == 1 {
      prefix := [];
    } else {
      var front := Join(pieces[..|pieces| - 1], sep);
      JoinLast(pieces, sep);
      prefix := front + sep;
      SeparatorContained(front, sep, tail);
      assert prefix[|prefix| - |sep|..] == sep;
    }
  }

  /** The first piece of a split is the text up to the first separator, or all of it. */
  lemma SplitFirstPiece(s: string, sep: string)
    requires sep != []
    ensures var stem := FirstPiece(s, sep);
      && |stem| <= |s| && s[..|stem|] == stem && !Contains(stem, sep)
      && (stem == s || (|stem| + |sep| <= |s| && s[|stem|..|stem| + |sep|] == sep))
  {
    var pieces := Split(s, sep);
    if |pieces| >= 2 {
      assert s == pieces[0] + sep + Join(pieces[1..], sep);
    }
  }

  /**
   * The name splits into a prefix that is empty (when the name holds no
   * "_iter") or ends with "_iter", and a tail holding no "_iter"; the
   * stem is the tail up to its first ".csv"; the index is `int(stem)`.
   */
  lemma IterIndexParts(name: string) returns (prefix: string, tail: string, stem: string)
    ensures name == prefix + tail
    ensures prefix == [] <==> !Contains(name, "_iter")
    ensures prefix != [] ==> |prefix| >= 5 && prefix[|prefix| - 5..] == "_iter"
    ensures !Contains(tail, "_iter")
    ensures |stem| <= |tail| && tail[..|stem|] == stem && !Contains(stem, ".csv")
    ensures stem == tail || (|stem| + 4 <= |tail| && tail[|stem|..|stem| + 4] == ".csv")
    ensures IterIndex(name) == ParseInt(stem)
  {
    tail := LastPiece(name, "_iter");
    stem := FirstPiece(tail, ".csv");
    prefix := SplitLastPiece(name, "_iter");
    SplitFirstPiece(tail, ".csv");
  }

  // ---------------------------------------------------------------------
  // Edges mined from the event log.

  /** An attack edge as the summariser records it: `{"from": ..., "to": ..., "reason": ...}`. */
  datatype Edge = Edge(from: Json, to: Json, reason: Json)

  /** The reason given to an edge a diagnosis added. */
  const DiagnosisReason := "verification_failed/diagnosis"

  /** Calling `.get` on a value that is not a dict. */
  const NoGet := "AttributeError: object has no attribute 'get'"

  /** Iterating over a number, a boolean or `None`. */
  const NotIterable := "TypeError: object is not iterable"

  /** `dict.get(key, default)` on a decoded value; only a dict has `get`. */
  function GetField(obj: Json, key: string, default: Json): (r: Result<Json, string>)
    ensures r.Failure? <==> !obj.JObj?
    ensures r.Failure? ==> r.error == NoGet
  {
    if !obj.JObj? then Failure(NoGet)
    else if key in obj.obj then Success(obj.obj[key])
    else Success(default)
  }

  /**
   * The items a `for` loop visits in a value: a list's elements. A string
   * or a dict yields strings (its characters, its keys), which no loop
   * here turns into an edge, so they are given as no items; a number, a
   * boolean or `None` cannot be iterated.
   */
  function Items(j: Json): (r: Result<seq<Json>, string>)
    ensures r.Failure? <==> (j.JNull? || j.JBool? || j.JNum?)
    ensures j.JArr? ==> r == Success(j.arr)
  {
    match j
    case JArr(xs) => Success(xs)
    case JStr(_) => Success([])
    case JObj(_) => Success([])
    case _ => Failure(NotIterable)
  }

  /** What the event log has given so far: the last accepted list (None before any), all of them, the diagnosis edges. */
  datatype Mined = Mined(accepted: Option<Json>, allGe: seq<Json>, reasoned: seq<Edge>)

  /** The edge an `attacks_add` item gives: a list of two or more items gives its first two. */
  function PairEdge(item: Json): (r: seq<Edge>)
  {
    if item.JArr? && |item.arr| >= 2 then [Edge(item.arr[0], item.arr[1], JStr(DiagnosisReason))] else []
  }

  /** The edges of a diagnosis's `attacks_add` items, in order. */
  function DiagnosisEdges(items: seq<Json>): (r: seq<Edge>)
    ensures |r| <= |items|
    ensures forall e | e in r :: e.reason == JStr(DiagnosisReason)
  {
    if items == [] then [] else DiagnosisEdges(items[..|items| - 1]) + PairEdge(items[|items| - 1])
  }

  /** A `grounded_extension` event. */
  predicate IsGeEvent(ev: Json) {
    ev.JObj? && "kind" in ev.obj && ev.obj["kind"] == JStr("grounded_extension")
  }

  /** The accepted list a `grounded_extension` event carries, `[]` when it carries none. */
  function AcceptedOf(ev: Json): Json
    requires ev.JObj?
  {
    var data := if "data" in ev.obj then ev.obj["data"] else JObj(map[]);
    if data.JObj? && "accepted" in data.obj then data.obj["accepted"] else JArr([])
  }

  /** One event of `collect_from_jsonl`'s loop. */
  function MineEvent(m: Mined, ev: Json): (r: Result<Mined, string>)
  {
    match GetField(ev, "kind", JNull)
    case Failure(e) => Failure(e)
    case Success(kind) =>
      if kind == JStr("grounded_extension") then
        match GetField(ev, "data", JObj(map[]))
        case Failure(e) => Failure(e)
        case Success(data) =>
          match GetField(data, "accepted", JArr([]))
          case Failure(e) => Failure(e)
          case Success(acc) => Success(Mined(Some(acc), m.allGe + [acc], m.reasoned))
      else if kind == JStr("diagnosis") then
        match GetField(ev, "data", JObj(map[]))
        case Failure(e) => Failure(e)
        case Success(data) =>
          match GetField(data, "attacks_add", JArr([]))
          case Failure(e) => Failure(e)
          case Success(add) =>
            match Items(add)
            case Failure(e) => Failure(e)
            case Success(items) => Success(m.(reasoned := m.reasoned + DiagnosisEdges(items)))
      else Success(m)
  }

  /**
   * `collect_from_jsonl`'s loop over the events: the accepted list is the
   * last one listed, every diagnosis edge carries the diagnosis reason,
   * and an event that is not a dict raises.
   */
  function Mine(events: seq<Json>): (r: Result<Mined, string>)
    ensures r.Success? ==> (r.value.accepted.Some? <==> r.value.allGe != [])
    ensures r.Success? && r.value.allGe != [] ==> r.value.accepted == Some(r.value.allGe[|r.value.allGe| - 1])
    ensures r.Success? ==> |r.value.allGe| <= |events|
    ensures r.Success? ==> forall e | e in r.value.reasoned :: e.reason == JStr(DiagnosisReason)
    ensures (exists i | 0 <= i < |events| :: !events[i].JObj?) ==> r.Failure?
  {
    if events == [] then Success(Mined(None, [], []))
    else
      var init := events[..|events| - 1];
      match Mine(init)
      case Failure(e) => Failure(e)
      case Success(m) =>
        assert forall i | 0 <= i < |events| - 1 :: events[i] == init[i];
        MineEvent(m, events[|events| - 1])
  }

  /** `collect_from_jsonl`: the last accepted list (or `[]` when it is missing or empty), all of them, the diagnosis edges. */
  function CollectFromJsonlSpec(events: seq<Json>): (r: Result<(Json, seq<Json>, seq<Edge>), string>)
  {
    match Mine(events)
    case Failure(e) => Failure(e)
    case Success(m) =>
      Success((if m.accepted.Some? && Truthy(m.accepted.value) then m.accepted.value else JArr([]), m.allGe, m.reasoned))
  }

  /**
   * After the last `grounded_extension` event, the accepted list is that
   * event's: the later events of other kinds leave it alone.
   */
  lemma {:induction false} LastGroundedExtension(events: seq<Json>, i: nat)
    requires i < |events| && IsGeEvent(events[i])
    requires forall j | i < j < |events| :: !IsGeEvent(events[j])
    requires Mine(events).Success?
    ensures Mine(events).value.accepted == Some(AcceptedOf(events[i]))
  {
    var init := events[..|events| - 1];
    var last := events[|events| - 1];
    if i < |events| - 1 {
      LastGroundedExtension(init, i);
      assert !IsGeEvent(last);
    }
  }

  /** With no `grounded_extension` event, the accepted list is `[]`. */
  lemma {:induction false} NoGroundedExtension(events: seq<Json>)
    requires forall j | 0 <= j < |events| :: !IsGeEvent(events[j])
    requires Mine(events).Success?
    ensures Mine(events).value.allGe == []
    ensures CollectFromJsonlSpec(events).value.0 == JArr([])
  {
    if events != [] {
      NoGroundedExtension(events[..|events| - 1]);
    }
  }

  /** The diagnosis edges of one `attacks_add` list, appended in order. */
  method AppendDiagnosisEdges(acc: seq<Edge>, items: seq<Json>) returns (r: seq<Edge>)
    ensures r == acc + DiagnosisEdges(items)
  {
    r := acc;
    var i := 0;
    while i < |items|
      invariant 0 <= i <= |items|
      invariant r == acc + DiagnosisEdges(items[..i])
    {
      var pair := items[i];
      if pair.JArr? && |pair.arr| >= 2 {
        r := r + [Edge(pair.arr[0], pair.arr[1], JStr(DiagnosisReason))];
      }
      assert items[..i + 1][..i] == items[..i];
      i := i + 1;
    }
    assert items[..i] == items;
  }

  /** One event of `collect_from_jsonl`'s loop, as the loop body performs it. */
  method MineStep(m: Mined, ev: Json) returns (r: Result<Mined, string>)
    ensures r == MineEvent(m, ev)
  {
    if !ev.JObj? {
      return Failure(NoGet);
    }
    var kind := if "kind" in ev.obj then ev.obj["kind"] else JNull;
    if kind != JStr("grounded_extension") && kind != JStr("diagnosis") {
      return Success(m);
    }
    var data := if "data" in ev.obj then ev.obj["data"] else JObj(map[]);
    if !data.JObj? {
      return Failure(NoGet);
    }
    if kind == JStr("grounded_extension") {
      var acc := if "accepted" in data.obj then data.obj["accepted"] else JArr([]);
      return Success(Mined(Some(acc), m.allGe + [acc], m.reasoned));
    }
    var add := if "attacks_add" in data.obj then data.obj["attacks_add"] else JArr([]);
    var items := Items(add);
    if items.Failure? {
      return Failure(items.error);
    }
    var reasoned := AppendDiagnosisEdges(m.reasoned, items.value);
    return Success(m.(reasoned := reasoned));
  }

  /** `collect_from_jsonl`. */
  method CollectFromJsonl(events: seq<Json>) returns (r: Result<(Json, seq<Json>, seq<Edge>), string>)
    ensures r == CollectFromJsonlSpec(events)
  {
    var m := Mined(None, [], []);
    var i := 0;
    while i < |events|
      invariant 0 <= i <= |events|
      invariant Mine(events[..i]) == Success(m)
    {
      var next := MineStep(m, events[i]);
      assert events[..i + 1][..i] == events[..i];
      if next.Failure? {
        FailureStays(events, i + 1);
        return Failure(next.error);
      }
      m := next.value;
      i := i + 1;
    }
    assert events[..i] == events;
    var accepted := if m.accepted.Some? && Truthy(m.accepted.value) then m.accepted.value else JArr([]);
    return Success((accepted, m.allGe, m.reasoned));
  }

  /** Once the loop has raised on some prefix, the whole log raises with the same error. */
  lemma {:induction false} FailureStays(events: seq<Json>, n: nat)
    requires n <= |events| && Mine(events[..n]).Failure?
    ensures Mine(events) == Mine(events[..n])
    decreases |events| - n
  {
    if n < |events| {
      assert events[..n + 1][..n] == events[..n];
      FailureStays(events, n + 1);
    } else {
      assert events[..n] == events;
    }
  }

  /** The edge an `arguments` event's attack item gives: a dict, or a list of two or more items. */
  function ItemEdge(e: Json): (r: seq<Edge>)
  {
    if e.JObj? then
      [Edge(Get(e.obj, "from", JStr("")), Get(e.obj, "to", JStr("")), Get(e.obj, "reason", JStr("")))]
    else if e.JArr? && |e.arr| >= 2 then [Edge(e.arr[0], e.arr[1], JStr(""))]
    else []
  }

  /** The edges of an `arguments` event's attack items, in order. */
  function ItemEdges(items: seq<Json>): (r: seq<Edge>)
    ensures |r| <= |items|
  {
    if items == [] then [] else ItemEdges(items[..|items| - 1]) + ItemEdge(items[|items| - 1])
  }

  /** An `arguments` or `arguments_llm` event. */
  predicate IsArgumentsKind(kind: Json) {
    kind == JStr("arguments_llm") || kind == JStr("arguments")
  }

  /** The attack list of an event's data: `attacks`, else `edges`, else `[]`, whichever is first truthy. */
  function AttackList(data: map<string, Json>): Json {
    var attacks := Get(data, "attacks", JNull);
    if Truthy(attacks) then attacks
    else
      var edges := Get(data, "edges", JNull);
      if Truthy(edges) then edges else JArr([])
  }

  /** One event of `collect_attacks_from_events`'s loop. */
  function EventEdges(ev: Json): (r: Result<seq<Edge>, string>)
    ensures ev.JObj? && !IsArgumentsKind(Get(ev.obj, "kind", JNull)) ==> r == Success([])
  {
    match GetField(ev, "kind", JNull)
    case Failure(e) => Failure(e)
    case Success(kind) =>
      if !IsArgumentsKind(kind) then Success([])
      else
        match GetField(ev, "data", JObj(map[]))
        case Failure(e) => Failure(e)
        case Success(data) =>
          if !data.JObj? then Failure(NoGet)
          else
            match Items(AttackList(data.obj))
            case Failure(e) => Failure(e)
            case Success(items) => Success(ItemEdges(items))
  }

  /** `collect_attacks_from_events`: the edges of every event, in order. */
  function AttackEdges(events: seq<Json>): (r: Result<seq<Edge>, string>)
  {
    if events == [] then Success([])
    else
      match AttackEdges(events[..|events| - 1])
      case Failure(e) => Failure(e)
      case Success(edges) =>
        match EventEdges(events[|events| - 1])
        case Failure(e) => Failure(e)
        case Success(more) => Success(edges + more)
  }

  /**
   * A list item of two or more elements gives the edge of its first two
   * elements with an empty reason; a dict gives its `from`, `to` and
   * `reason`, each defaulting to ""; any other item gives nothing.
   */
  lemma ItemEdgeCases(e: Json)
    ensures e.JArr? && |e.arr| >= 2 ==> ItemEdge(e) == [Edge(e.arr[0], e.arr[1], JStr(""))]
    ensures e.JObj? && "from" in e.obj && "to" in e.obj && "reason" !in e.obj ==>
      ItemEdge(e) == [Edge(e.obj["from"], e.obj["to"], JStr(""))]
    ensures ItemEdge(e) == [] <==> !e.JObj? && !(e.JArr? && |e.arr| >= 2)
  {
  }

  /** A log of dict events of other kinds contributes no attack edge. */
  lemma {:induction false} NoArgumentsNoEdges(events: seq<Json>)
    requires forall i | 0 <= i < |events| :: events[i].JObj? && !IsArgumentsKind(Get(events[i].obj, "kind", JNull))
    ensures AttackEdges(events) == Success([])
  {
    if events != [] {
      var last := events[|events| - 1];
      NoArgumentsNoEdges(events[..|events| - 1]);
      assert EventEdges(last) == Success([]);
      var none: seq<Edge> := [];
      assert none + none == none;
    }
  }

  /** When every item of an attack list is an edge, the event gives one edge per item. */
  lemma {:induction false} ItemEdgesAllKept(items: seq<Json>)
    requires forall i | 0 <= i < |items| :: items[i].JObj? || (items[i].JArr? && |items[i].arr| >= 2)
    ensures |ItemEdges(items)| == |items|
  {
    if items != [] {
      ItemEdgesAllKept(items[..|items| - 1]);
    }
  }

  /** The edges of one attack list, appended in order. */
  method AppendItemEdges(acc: seq<Edge>, items: seq<Json>) returns (r: seq<Edge>)
    ensures r == acc + ItemEdges(items)
  {
    r := acc;
    var i := 0;
    while i < |items|
      invariant 0 <= i <= |items|
      invariant r == acc + ItemEdges(items[..i])
    {
      var e := items[i];
      if e.JObj? {
        r := r + [Edge(Get(e.obj, "from", JStr("")), Get(e.obj, "to", JStr("")), Get(e.obj, "reason", JStr("")))];
      } else if e.JArr? && |e.arr| >= 2 {
        r := r + [Edge(e.arr[0], e.arr[1], JStr(""))];
      }
      assert items[..i + 1][..i] == items[..i];
      i := i + 1;
    }
    assert items[..i] == items;
  }

  /** `collect_attacks_from_events`. */
  method CollectAttacksFromEvents(events: seq<Json>) returns (r: Result<seq<Edge>, string>)
    ensures r == AttackEdges(events)
  {
    var out: seq<Edge> := [];
    var i := 0;
    while i < |events|
      invariant 0 <= i <= |events|
      invariant AttackEdges(events[..i]) == Success(out)
    {
      var ev := events[i];
      assert events[..i + 1][..i] == events[..i];
      var more := EventEdges(ev);
      if more.Failure? {
        AttackFailureStays(events, i + 1);
        return Failure(more.error);
      }
      out := AppendItemEdgesOf(out, ev, more.value);
      i := i + 1;
    }
    assert events[..i] == events;
    return Success(out);
  }

  /** The loop body's appending for one event whose edges are `more`. */
  method AppendItemEdgesOf(out: seq<Edge>, ev: Json, more: seq<Edge>) returns (r: seq<Edge>)
    requires EventEdges(ev) == Success(more)
    ensures r == out + more
  {
    if !ev.JObj? || !IsArgumentsKind(Get(ev.obj, "kind", JNull)) {
      return out;
    }
    var data := Get(ev.obj, "data", JObj(map[]));
    var items := Items(AttackList(data.obj));
    r := AppendItemEdges(out, items.value);
  }

  /** Once the loop has raised on some prefix, the whole log raises with the same error. */
  lemma {:induction false} AttackFailureStays(events: seq<Json>, n: nat)
    requires n <= |events| && AttackEdges(events[..n]).Failure?
    ensures AttackEdges(events) == AttackEdges(events[..n])
    decreases |events| - n
  {
    if n < |events| {
      assert events[..n + 1][..n] == events[..n];
      AttackFailureStays(events, n + 1);
    } else {
      assert events[..n] == events;
    }
  }

  // ---------------------------------------------------------------------
  // Removing duplicate edges.

  /** Hashing a list or a dict. */
  const Unhashable := "TypeError: unhashable type"

  /** A value `hash` accepts: not a list and not a dict. */
  predicate Hashable(j: Json) {
    !j.JArr? && !j.JObj?
  }

  /** A hashable value's identity under `==` and `hash`: `True` is `1`, `False` is `0`. */
  function Canon(j: Json): (r: Json)
    ensures Hashable(j) ==> Hashable(r)
  {
    if j.JBool? then JNum(if j.b then 1.0 else 0.0) else j
  }

  /** Two hashable values are equal in Python exactly when their canonical forms are the same. */
  lemma CanonIsPyEq(a: Json, b: Json)
    requires Hashable(a) && Hashable(b)
    ensures PyEq(a, b) <==> Canon(a) == Canon(b)
  {
    if a.JNum? && b.JBool? {
      assert PyEq(a, b) <==> a.x == (if b.b then 1.0 else 0.0);
    }
  }

  /** The key `unique_edges` compares edges by: `(from, to, reason)`. */
  type Key = (Json, Json, Json)

  function KeyOf(e: Edge): Key {
    (Canon(e.from), Canon(e.to), Canon(e.reason))
  }

  predicate EdgeHashable(e: Edge) {
    Hashable(e.from) && Hashable(e.to) && Hashable(e.reason)
  }

  /** The keys of a sequence of edges. */
  function KeysOf(edges: seq<Edge>): set<Key> {
    set i | 0 <= i < |edges| :: KeyOf(edges[i])
  }

  /** The edges whose key has not been seen before them, in order. */
  function Unique(edges: seq<Edge>): (r: seq<Edge>)
    ensures |r| <= |edges|
  {
    if edges == [] then []
    else
      var init := edges[..|edges| - 1];
      var last := edges[|edges| - 1];
      Unique(init) + (if KeyOf(last) in KeysOf(init) then [] else [last])
  }

  /** The keys of two sequences joined are the keys of each. */
  lemma KeysOfAppend(a: seq<Edge>, b: seq<Edge>)
    ensures KeysOf(a + b) == KeysOf(a) + KeysOf(b)
  {
    var ab := a + b;
    forall k | k in KeysOf(a)
      ensures k in KeysOf(ab)
    {
      var i :| 0 <= i < |a| && KeyOf(a[i]) == k;
      assert ab[i] == a[i];
    }
    forall k | k in KeysOf(b)
      ensures k in KeysOf(ab)
    {
      var i :| 0 <= i < |b| && KeyOf(b[i]) == k;
      assert ab[|a| + i] == b[i];
    }
  }

  /** No key is lost: the kept edges have every key the input has. */
  lemma {:induction false} UniqueKeys(edges: seq<Edge>)
    ensures KeysOf(Unique(edges)) == KeysOf(edges)
  {
    if edges != [] {
      var init := edges[..|edges| - 1];
      var last := edges[|edges| - 1];
      UniqueKeys(init);
      KeysOfAppend(Unique(init), if KeyOf(last) in KeysOf(init) then [] else [last]);
      assert edges == init + [last];
      KeysOfAppend(init, [last]);
    }
  }

  /** `unique_edges`: hashing a list or dict field raises; otherwise the first edge of every key, in order. */
  function UniqueEdgesSpec(edges: seq<Edge>): (r: Result<seq<Edge>, string>)
  {
    if forall i | 0 <= i < |edges| :: EdgeHashable(edges[i]) then Success(Unique(edges)) else Failure(Unhashable)
  }

  /**
   * The kept edges have pairwise different keys, each kept edge is the
   * first edge of its key in the input, and the kept edges keep the
   * input's order: `idx` gives their positions, increasing.
   */
  lemma {:induction false} UniqueFirstOccurrences(edges: seq<Edge>) returns (idx: seq<nat>)
    ensures |idx| == |Unique(edges)|
    ensures forall k | 0 <= k < |idx| :: idx[k] < |edges| && Unique(edges)[k] == edges[idx[k]]
    ensures forall k, l | 0 <= k < l < |idx| :: idx[k] < idx[l]
    ensures forall k | 0 <= k < |idx| :: forall j | 0 <= j < idx[k] :: KeyOf(edges[j]) != KeyOf(edges[idx[k]])
    ensures forall k, l | 0 <= k < l < |idx| :: KeyOf(Unique(edges)[k]) != KeyOf(Unique(edges)[l])
  {
    if edges == [] {
      idx := [];
    } else {
      var init := edges[..|edges| - 1];
      var last := edges[|edges| - 1];
      var prev := UniqueFirstOccurrences(init);
      var u := Unique(init);
      assert forall i | 0 <= i < |edges| - 1 :: edges[i] == init[i];
      if KeyOf(last) in KeysOf(init) {
        idx := prev;
        assert Unique(edges) == u + [];
      } else {
        idx := prev + [|edges| - 1];
        assert Unique(edges) == u + [last];
        forall k | 0 <= k < |u|
          ensures KeyOf(u[k]) != KeyOf(last)
        {
          assert KeyOf(u[k]) in KeysOf(u);
        }
      }
    }
  }

  /** Removing duplicates twice is removing them once. */
  lemma {:induction false} UniqueIdempotent(edges: seq<Edge>)
    ensures Unique(Unique(edges)) == Unique(edges)
  {
    var idx := UniqueFirstOccurrences(edges);
    DistinctUnchanged(Unique(edges));
  }

  /** Edges with pairwise different keys are kept as they are. */
  lemma {:induction false} DistinctUnchanged(edges: seq<Edge>)
    requires forall k, l | 0 <= k < l < |edges| :: KeyOf(edges[k]) != KeyOf(edges[l])
    ensures Unique(edges) == edges
  {
    if edges != [] {
      var init := edges[..|edges| - 1];
      var last := edges[|edges| - 1];
      DistinctUnchanged(init);
      assert KeyOf(last) !in KeysOf(init);
      assert edges == init + [last];
    }
  }

  /** `unique_edges`. */
  method UniqueEdges(edges: seq<Edge>) returns (r: Result<seq<Edge>, string>)
    ensures r == UniqueEdgesSpec(edges)
  {
    var seen: set<Key> := {};
    var res: seq<Edge> := [];
    var i := 0;
    while i < |edges|
      invariant 0 <= i <= |edges|
      invariant forall j | 0 <= j < i :: EdgeHashable(edges[j])
      invariant seen == KeysOf(edges[..i])
      invariant res == Unique(edges[..i])
    {
      var e := edges[i];
      if !EdgeHashable(e) {
        return Failure(Unhashable);
      }
      var key := KeyOf(e);
      assert edges[..i + 1] == edges[..i] + [e];
      KeysOfAppend(edges[..i], [e]);
      assert edges[..i + 1][..i] == edges[..i];
      if key !in seen {
        seen := seen + {key};
        res := res + [e];
      }
      i := i + 1;
    }
    assert edges[..i] == edges;
    return Success(res);
  }

  // ---------------------------------------------------------------------
  // Reasons attached to the attacks table.

  /** A row of the attacks table with its reason. */
  datatype Merged = Merged(attacker: string, target: string, reason: Json)

  /** The key the reason map files an edge under: `(from, to)`. */
  function PairKey(e: Edge): (Json, Json) {
    (Canon(e.from), Canon(e.to))
  }

  /** `{(e["from"], e["to"]): e.get("reason", "") for e in edges}`: a later edge overrides an earlier one. */
  function ReasonMap(edges: seq<Edge>): (r: map<(Json, Json), Json>)
    ensures forall i | 0 <= i < |edges| :: PairKey(edges[i]) in r
  {
    if edges == [] then map[]
    else
      var init := edges[..|edges| - 1];
      assert forall i | 0 <= i < |edges| - 1 :: edges[i] == init[i];
      ReasonMap(init)[PairKey(edges[|edges| - 1]) := edges[|edges| - 1].reason]
  }

  /** A pair is in the map exactly when some edge is filed under it. */
  lemma {:induction false} ReasonMapKeys(edges: seq<Edge>, key: (Json, Json))
    ensures key in ReasonMap(edges) <==> exists i | 0 <= i < |edges| :: PairKey(edges[i]) == key
  {
    if edges != [] {
      var init := edges[..|edges| - 1];
      ReasonMapKeys(init, key);
      if key in ReasonMap(edges) && key != PairKey(edges[|edges| - 1]) {
        var i :| 0 <= i < |init| && PairKey(init[i]) == key;
        assert edges[i] == init[i];
      }
    }
  }

  /** A pair's reason is the reason of the last edge filed under it. */
  lemma {:induction false} ReasonMapLast(edges: seq<Edge>, i: nat)
    requires i < |edges|
    requires forall j | i < j < |edges| :: PairKey(edges[j]) != PairKey(edges[i])
    ensures ReasonMap(edges)[PairKey(edges[i])] == edges[i].reason
  {
    if i < |edges| - 1 {
      var init := edges[..|edges| - 1];
      assert init[i] == edges[i];
      ReasonMapLast(init, i);
    }
  }

  /** A table cell: `row.get(column, "")`. */
  function Cell(row: Row, column: string): string {
    if column in row then row[column] else ""
  }

  /** The merged row for a table row: the reason filed under (attacker, target), or "". */
  function MergeRow(row: Row, reasons: map<(Json, Json), Json>): (r: Merged)
    ensures r.attacker == Cell(row, "attacker") && r.target == Cell(row, "target")
  {
    var key := (JStr(Cell(row, "attacker")), JStr(Cell(row, "target")));
    Merged(Cell(row, "attacker"), Cell(row, "target"), if key in reasons then reasons[key] else JStr(""))
  }

  /** `_attach_reasons`: building the map raises on a list or dict endpoint; otherwise one merged row per row. */
  function AttachReasonsSpec(rows: seq<Row>, edges: seq<Edge>): (r: Result<seq<Merged>, string>)
    ensures r.Success? ==> |r.value| == |rows|
  {
    if forall i | 0 <= i < |edges| :: Hashable(edges[i].from) && Hashable(edges[i].to) then
      var reasons := ReasonMap(edges);
      Success(seq(|rows|, k requires 0 <= k < |rows| => MergeRow(rows[k], reasons)))
    else Failure(Unhashable)
  }

  /**
   * A row's reason is that of the last edge whose endpoints equal the
   * row's attacker and target, or "" when there is none.
   */
  lemma ReasonOfRow(rows: seq<Row>, edges: seq<Edge>, k: nat)
    requires k < |rows| && AttachReasonsSpec(rows, edges).Success?
    ensures var a, t := Cell(rows[k], "attacker"), Cell(rows[k], "target");
      var reason := AttachReasonsSpec(rows, edges).value[k].reason;
      && ((forall i | 0 <= i < |edges| :: !(PyEq(edges[i].from, JStr(a)) && PyEq(edges[i].to, JStr(t))))
          ==> reason == JStr(""))
      && forall i | 0 <= i < |edges| && PyEq(edges[i].from, JStr(a)) && PyEq(edges[i].to, JStr(t))
           && (forall j | i < j < |edges| :: !(PyEq(edges[j].from, JStr(a)) && PyEq(edges[j].to, JStr(t)))) ::
           reason == edges[i].reason
  {
    var a, t := Cell(rows[k], "attacker"), Cell(rows[k], "target");
    var key := (JStr(a), JStr(t));
    forall i | 0 <= i < |edges|
      ensures PairKey(edges[i]) == key <==> PyEq(edges[i].from, JStr(a)) && PyEq(edges[i].to, JStr(t))
    {
      CanonIsPyEq(edges[i].from, JStr(a));
      CanonIsPyEq(edges[i].to, JStr(t));
    }
    ReasonMapKeys(edges, key);
    forall i | 0 <= i < |edges| && PairKey(edges[i]) == key
      && (forall j | i < j < |edges| :: PairKey(edges[j]) != key)
      ensures ReasonMap(edges)[key] == edges[i].reason
    {
      ReasonMapLast(edges, i);
    }
  }

  /** The reason map, built edge by edge. */
  method BuildReasonMap(edges: seq<Edge>) returns (reasons: map<(Json, Json), Json>)
    requires forall i | 0 <= i < |edges| :: Hashable(edges[i].from) && Hashable(edges[i].to)
    ensures reasons == ReasonMap(edges)
  {
    reasons := map[];
    var i := 0;
    while i < |edges|
      invariant 0 <= i <= |edges|
      invariant reasons == ReasonMap(edges[..i])
    {
      assert edges[..i + 1][..i] == edges[..i];
      reasons := reasons[PairKey(edges[i]) := edges[i].reason];
      i := i + 1;
    }
    assert edges[..i] == edges;
  }

  /** `_attach_reasons`. */
  method AttachReasons(rows: seq<Row>, edges: seq<Edge>) returns (r: Result<seq<Merged>, string>)
    ensures r == AttachReasonsSpec(rows, edges)
  {
    var i := 0;
    while i < |edges|
      invariant 0 <= i <= |edges|
      invariant forall j | 0 <= j < i :: Hashable(edges[j].from) && Hashable(edges[j].to)
    {
      if !Hashable(edges[i].from) || !Hashable(edges[i].to) {
        return Failure(Unhashable);
      }
      i := i + 1;
    }
    var reasons := BuildReasonMap(edges);
    var merged: seq<Merged> := [];
    var k := 0;
    while k < |rows|
      invariant 0 <= k <= |rows|
      invariant |merged| == k
      invariant forall l | 0 <= l < k :: merged[l] == MergeRow(rows[l], reasons)
    {
      merged := merged + [MergeRow(rows[k], reasons)];
      k := k + 1;
    }
    assert merged == seq(|rows|, l requires 0 <= l < |rows| => MergeRow(rows[l], ReasonMap(edges)));
    return Success(merged);
  }
}
