/** The file-backed saga log: the text it writes, and how the text is parsed back line by line. */
module FileLogSpec {
  import opened Wrappers
  import opened SagaSpec
  import Sequences

  /** The scanner gives up on a line that does not fit its buffer together with the newline. */
  const MAX_TOKEN := 65536

  const NEWLINE := "\n"

  function KindLine(k: MsgKind): string {
    match k
    case StartSaga => "Start Saga"
    case EndSaga => "End Saga"
    case AbortSaga => "Abort Saga"
    case StartTask => "Start Task"
    case EndTask => "End Task"
    case StartCompTask => "Start Comp Task"
    case EndCompTask => "End Comp Task"
  }

  // -------------------------------------------------------------------------------------------
  // Lines.

  /** The position of the first newline, or the length of the text. */
  function LineEnd(s: string): (i: nat)
    ensures i <= |s| && (forall j :: 0 <= j < i ==> s[j] != '\n') && (i < |s| ==> s[i] == '\n')
  {
    if s == "" || s[0] == '\n' then 0 else 1 + LineEnd(s[1..])
  }

  function DropReturn(line: string): string {
    if line != "" && line[|line| - 1] == '\r' then line[..|line| - 1] else line
  }

  /** The next line of the text and what follows it; none at the end of the text or if the line is too long. */
  function Scan(s: string): Option<(string, string)> {
    var i := LineEnd(s);
    if s == "" || i >= MAX_TOKEN then None
    else Some((DropReturn(s[..i]), if i < |s| then s[i + 1..] else ""))
  }

  /** What can be written as a line and read back. */
  predicate GoodLine(line: string) {
    '\n' !in line && |line| < MAX_TOKEN && (line == "" || line[|line| - 1] != '\r')
  }

  lemma LineEndAt(line: string, rest: string)
    requires '\n' !in line
    ensures LineEnd(line + NEWLINE + rest) == |line|
  {
    var s := line + NEWLINE + rest;
    assert s[|line|] == '\n';
    assert forall j :: 0 <= j < |line| ==> s[j] == line[j];
  }

  /** A line reads back exactly when it has no newline, does not end in a carriage return, and is not too long. */
  lemma LineRoundTrip(line: string, rest: string)
    ensures Scan(line + NEWLINE + rest) == Some((line, rest)) <==> GoodLine(line)
  {
    var s := line + NEWLINE + rest;
    if '\n' !in line {
      LineEndAt(line, rest);
      assert s[..|line|] == line && s[|line| + 1..] == rest;
    } else {
      var k :| 0 <= k < |line| && line[k] == '\n';
      assert s[k] == '\n';
      assert LineEnd(s) < |line|;
    }
  }

  // -------------------------------------------------------------------------------------------
  // Records.

  /** A message with the name of the file that holds its data, if it was given one. */
  datatype Record = Record(msg: Msg, file: Option<string>)

  /** The line that names the file. */
  function FileLine(file: Option<string>): string { if file.None? then "" else file.value + NEWLINE }

  function Text(r: Record): string {
    KindLine(r.msg.kind) + NEWLINE +
    (if IsTaskKind(r.msg.kind) then r.msg.taskId + NEWLINE + FileLine(r.file) else FileLine(r.file))
  }

  function Contents(data: Option<Bytes>): Bytes { if data.None? then [] else data.value }

  /** What a message reads back as: absent data as empty data. */
  function AsRead(m: Msg): Msg {
    if m.kind == EndSaga || m.kind == AbortSaga then m else m.(data := Some(Contents(m.data)))
  }

  type Files = map<string, Bytes>

  datatype Corrupted = Corrupted

  function ReadData(s: string, files: Files): Result<(Bytes, string), Corrupted> {
    match Scan(s)
    case None => Err(Corrupted)
    case Some((file, rest)) => if file in files then Ok((files[file], rest)) else Err(Corrupted)
  }

  function ParseTask(id: string, kind: MsgKind, s: string, files: Files): Result<(Msg, string), Corrupted> {
    match Scan(s)
    case None => Err(Corrupted)
    case Some((taskId, rest)) =>
      match ReadData(rest, files)
      case Err(e) => Err(e)
      case Ok((data, rest')) => Ok((Msg(id, kind, taskId, Some(data)), rest'))
  }

  /** One message, its first line having been read. */
  function ParseMessage(id: string, line: string, s: string, files: Files): Result<(Msg, string), Corrupted> {
    if line == "Start Saga" then
      match ReadData(s, files)
      case Err(e) => Err(e)
      case Ok((data, rest)) => Ok((Msg(id, StartSaga, "", Some(data)), rest))
    else if line == "End Saga" then Ok((Msg(id, EndSaga, "", None), s))
    else if line == "Abort Saga" then Ok((Msg(id, AbortSaga, "", None), s))
    else if line == "Start Task" then ParseTask(id, StartTask, s, files)
    else if line == "End Task" then ParseTask(id, EndTask, s, files)
    else if line == "Start Comp Task" then ParseTask(id, StartCompTask, s, files)
    else if line == "End Comp Task" then ParseTask(id, EndCompTask, s, files)
    else Err(Corrupted)
  }

  lemma ScanShortens(s: string)
    ensures Scan(s).Some? ==> |Scan(s).value.1| < |s|
  {
  }

  lemma ParseShortens(id: string, line: string, s: string, files: Files)
    ensures ParseMessage(id, line, s, files).Ok? ==> |ParseMessage(id, line, s, files).value.1| <= |s|
  {
    ScanShortens(s);
    if Scan(s).Some? { ScanShortens(Scan(s).value.1); }
  }

  function ParseAll(id: string, s: string, files: Files): Result<seq<Msg>, Corrupted>
    decreases |s|
  {
    match Scan(s)
    case None => Ok([])
    case Some((line, rest)) =>
      ScanShortens(s);
      ParseShortens(id, line, rest, files);
      match ParseMessage(id, line, rest, files)
      case Err(e) => Err(e)
      case Ok((m, rest')) =>
        match ParseAll(id, rest', files)
        case Err(e) => Err(e)
        case Ok(msgs) => Ok([m] + msgs)
  }

  lemma ParseAllStep(id: string, s: string, files: Files, line: string, body: string, m: Msg, rest: string)
    requires Scan(s) == Some((line, body)) && ParseMessage(id, line, body, files) == Ok((m, rest))
    ensures ParseAll(id, rest, files).Ok? ==> ParseAll(id, s, files) == Ok([m] + ParseAll(id, rest, files).value)
    ensures ParseAll(id, rest, files).Err? ==> ParseAll(id, s, files).Err?
  {
  }

  predicate HasFile(k: MsgKind) { IsTaskKind(k) || k == StartSaga }

  /** A message of this saga as the message constructors make them, with names that are good lines. */
  predicate WellMade(id: string, r: Record) {
    && r.msg.sagaId == id && GoodLine(r.msg.taskId) && (!IsTaskKind(r.msg.kind) ==> r.msg.taskId == "")
    && if HasFile(r.msg.kind) then r.file.Some? && GoodLine(r.file.value) else r.file.None? && r.msg.data == None
  }

  predicate InPlace(r: Record, files: Files) {
    r.file.Some? ==> r.file.value in files && files[r.file.value] == Contents(r.msg.data)
  }

  /** A record that can be read back. */
  predicate Sound(id: string, r: Record, files: Files) { WellMade(id, r) && InPlace(r, files) }

  lemma KindLinesAreGood(k: MsgKind)
    ensures GoodLine(KindLine(k))
  {
  }

  lemma ReadDataBack(file: string, rest: string, files: Files)
    requires GoodLine(file) && file in files
    ensures ReadData(file + NEWLINE + rest, files) == Ok((files[file], rest))
  {
    LineRoundTrip(file, rest);
  }

  lemma ParseTaskBack(id: string, r: Record, rest: string, files: Files)
    requires Sound(id, r, files) && IsTaskKind(r.msg.kind)
    ensures ParseTask(id, r.msg.kind, r.msg.taskId + NEWLINE + (FileLine(r.file) + rest), files) ==
            Ok((AsRead(r.msg), rest))
  {
    LineRoundTrip(r.msg.taskId, FileLine(r.file) + rest);
    ReadDataBack(r.file.value, rest, files);
  }

  /** What follows the first line of a record. */
  function Body(r: Record, rest: string): string {
    if IsTaskKind(r.msg.kind) then r.msg.taskId + NEWLINE + (FileLine(r.file) + rest) else FileLine(r.file) + rest
  }

  lemma TextIsBody(r: Record, rest: string)
    ensures Text(r) + rest == KindLine(r.msg.kind) + NEWLINE + Body(r, rest)
  {
  }

  lemma KindLineParses(id: string, kind: MsgKind, s: string, files: Files)
    ensures ParseMessage(id, KindLine(kind), s, files) ==
            if IsTaskKind(kind) then ParseTask(id, kind, s, files)
            else if kind != StartSaga then Ok((Msg(id, kind, "", None), s))
            else match ReadData(s, files)
                 case Err(e) => Err(e)
                 case Ok((data, rest)) => Ok((Msg(id, StartSaga, "", Some(data)), rest))
  {
  }

  lemma BodyBack(id: string, r: Record, rest: string, files: Files)
    requires Sound(id, r, files)
    ensures ParseMessage(id, KindLine(r.msg.kind), Body(r, rest), files) == Ok((AsRead(r.msg), rest))
  {
    KindLineParses(id, r.msg.kind, Body(r, rest), files);
    if IsTaskKind(r.msg.kind) {
      ParseTaskBack(id, r, rest, files);
    } else if r.msg.kind == StartSaga {
      ReadDataBack(r.file.value, rest, files);
    } else {
      assert FileLine(r.file) + rest == rest;
    }
  }

  /** A record is parsed back whatever follows it, even if its task id reads like a message kind. */
  lemma RecordRoundTrip(id: string, r: Record, rest: string, files: Files)
    requires Sound(id, r, files)
    ensures Scan(Text(r) + rest).Some?
    ensures var (line, body) := Scan(Text(r) + rest).value;
      ParseMessage(id, line, body, files) == Ok((AsRead(r.msg), rest))
  {
    KindLinesAreGood(r.msg.kind);
    TextIsBody(r, rest);
    LineRoundTrip(KindLine(r.msg.kind), Body(r, rest));
    BodyBack(id, r, rest, files);
  }

  // -------------------------------------------------------------------------------------------
  // Whole logs.

  function LogText(rs: seq<Record>): string { if rs == [] then "" else Text(rs[0]) + LogText(rs[1..]) }

  function MsgsAsRead(rs: seq<Record>): seq<Msg> { seq(|rs|, i requires 0 <= i < |rs| => AsRead(rs[i].msg)) }

  lemma FirstRecordBack(id: string, r: Record, rest: string, files: Files)
    requires Sound(id, r, files)
    ensures ParseAll(id, rest, files).Ok? ==>
              ParseAll(id, Text(r) + rest, files) == Ok([AsRead(r.msg)] + ParseAll(id, rest, files).value)
    ensures ParseAll(id, rest, files).Err? ==> ParseAll(id, Text(r) + rest, files).Err?
  {
    RecordRoundTrip(id, r, rest, files);
    var (line, body) := Scan(Text(r) + rest).value;
    ParseAllStep(id, Text(r) + rest, files, line, body, AsRead(r.msg), rest);
  }

  lemma {:induction false} LogRoundTrip(id: string, rs: seq<Record>, files: Files)
    requires forall i :: 0 <= i < |rs| ==> Sound(id, rs[i], files)
    ensures ParseAll(id, LogText(rs), files) == Ok(MsgsAsRead(rs))
  {
    if rs == [] {
      assert LogText(rs) == "" && Scan("") == None;
      assert MsgsAsRead(rs) == [];
    } else {
      FirstAsRead(rs);
      LogRoundTrip(id, rs[1..], files);
      FirstRecordBack(id, rs[0], LogText(rs[1..]), files);
    }
  }

  lemma {:induction false} LogTextAppend(rs: seq<Record>, r: Record)
    ensures LogText(rs + [r]) == LogText(rs) + Text(r)
  {
    if rs == [] {
      assert ([] + [r])[1..] == [];
    } else {
      assert (rs + [r])[1..] == rs[1..] + [r];
      LogTextAppend(rs[1..], r);
    }
  }

  lemma NothingParses(id: string, files: Files)
    ensures ParseAll(id, "", files) == Ok([])
  {
    assert Scan("") == None;
  }

  /** The text parses as these messages followed by whatever `rest` does. */
  ghost predicate ParsesOn(id: string, text: string, msgs: seq<Msg>, rest: string, files: Files) {
    && (ParseAll(id, rest, files).Ok? ==>
          ParseAll(id, text, files) == Ok(msgs + ParseAll(id, rest, files).value))
    && (ParseAll(id, rest, files).Err? ==> ParseAll(id, text, files).Err?)
  }

  lemma NoneParsesOn(id: string, rest: string, files: Files)
    ensures ParsesOn(id, rest, [], rest, files)
  {
    if ParseAll(id, rest, files).Ok? { assert [] + ParseAll(id, rest, files).value == ParseAll(id, rest, files).value; }
  }

  lemma OneMoreParsesOn(id: string, text: string, m: Msg, mid: string, msgs: seq<Msg>, rest: string, files: Files)
    requires ParsesOn(id, text, [m], mid, files) && ParsesOn(id, mid, msgs, rest, files)
    ensures ParsesOn(id, text, [m] + msgs, rest, files)
  {
    if ParseAll(id, rest, files).Ok? {
      Sequences.ConcatAssociates([m], msgs, ParseAll(id, rest, files).value);
    }
  }

  lemma FirstText(rs: seq<Record>, rest: string)
    requires rs != []
    ensures LogText(rs) + rest == Text(rs[0]) + (LogText(rs[1..]) + rest)
  {
    Sequences.ConcatAssociates(Text(rs[0]), LogText(rs[1..]), rest);
  }

  lemma FirstAsRead(rs: seq<Record>)
    requires rs != []
    ensures MsgsAsRead(rs) == [AsRead(rs[0].msg)] + MsgsAsRead(rs[1..])
  {
  }

  lemma RecordParsesOn(id: string, r: Record, rest: string, files: Files)
    requires Sound(id, r, files)
    ensures ParsesOn(id, Text(r) + rest, [AsRead(r.msg)], rest, files)
  {
    FirstRecordBack(id, r, rest, files);
  }

  /** Sound records parse back, and then so does whatever follows them. */
  lemma {:induction false} SoundPrefix(id: string, rs: seq<Record>, rest: string, files: Files)
    requires forall i :: 0 <= i < |rs| ==> Sound(id, rs[i], files)
    ensures ParsesOn(id, LogText(rs) + rest, MsgsAsRead(rs), rest, files)
  {
    if rs == [] {
      assert LogText(rs) + rest == rest && MsgsAsRead(rs) == [];
      NoneParsesOn(id, rest, files);
    } else {
      var mid := LogText(rs[1..]) + rest;
      SoundPrefix(id, rs[1..], rest, files);
      RecordParsesOn(id, rs[0], mid, files);
      FirstText(rs, rest);
      FirstAsRead(rs);
      OneMoreParsesOn(id, Text(rs[0]) + mid, AsRead(rs[0].msg), mid, MsgsAsRead(rs[1..]), rest, files);
    }
  }

  /** After a StartSaga line that names no file, the next message's kind is taken for the name. */
  lemma BareStartIsCorrupt(id: string, m: Msg, rest: seq<Record>, files: Files)
    requires m.kind == StartSaga && (rest != [] ==> KindLine(rest[0].msg.kind) !in files)
    ensures ParseAll(id, Text(Record(m, None)) + LogText(rest), files).Err?
  {
    var text := LogText(rest);
    assert Text(Record(m, None)) + text == KindLine(StartSaga) + NEWLINE + text;
    KindLinesAreGood(StartSaga);
    LineRoundTrip(KindLine(StartSaga), text);
    if rest != [] {
      var kind, more := KindLine(rest[0].msg.kind), Body(rest[0], LogText(rest[1..]));
      TextIsBody(rest[0], LogText(rest[1..]));
      KindLinesAreGood(rest[0].msg.kind);
      LineRoundTrip(kind, more);
    }
    assert ParseMessage(id, "Start Saga", text, files).Err?;
  }

  lemma {:induction false} LogTextConcat(rs: seq<Record>, more: seq<Record>)
    ensures LogText(rs + more) == LogText(rs) + LogText(more)
  {
    if rs == [] {
      assert rs + more == more;
    } else {
      assert (rs + more)[1..] == rs[1..] + more;
      LogTextConcat(rs[1..], more);
    }
  }

  /** A StartSaga message that is logged like any other names no file: the log can then not be read back, whatever is
      logged after it, unless a data file is named like the kind of the message right after it. */
  lemma LoggedStartSagaCorrupts(id: string, rs: seq<Record>, m: Msg, more: seq<Record>, files: Files)
    requires m.kind == StartSaga && (forall i :: 0 <= i < |rs| ==> Sound(id, rs[i], files))
    requires more != [] ==> KindLine(more[0].msg.kind) !in files
    ensures ParseAll(id, LogText(rs + ([Record(m, None)] + more)), files).Err?
  {
    var bare := Record(m, None);
    LogTextConcat(rs, [bare] + more);
    assert ([bare] + more)[1..] == more;
    BareStartIsCorrupt(id, m, more, files);
    SoundPrefix(id, rs, LogText([bare] + more), files);
  }

  // -------------------------------------------------------------------------------------------
  // Which messages read back.

  /** A task message reads back if its task's id is a good line; of the others, what is not written must be empty,
      and StartSaga does not. */
  predicate ReadsBack(m: Msg) {
    if IsTaskKind(m.kind) then GoodLine(m.taskId) else m.kind != StartSaga && m.taskId == "" && m.data == None
  }

  /** The record of a message that is logged: only a task message names a file. */
  function RecordFor(m: Msg, file: string): Record { Record(m, if IsTaskKind(m.kind) then Some(file) else None) }

  /** The files after a message was logged. */
  function FilesWith(files: Files, m: Msg, file: string): Files {
    if IsTaskKind(m.kind) then files[file := Contents(m.data)] else files
  }

  /** A line that is no good is not read as itself, whatever follows. */
  lemma BadLineReadsOtherwise(line: string, rest: string)
    requires !GoodLine(line)
    ensures Scan(line + NEWLINE + rest).Some? ==> Scan(line + NEWLINE + rest).value.0 != line
  {
    var s := line + NEWLINE + rest;
    if '\n' in line {
      var k :| 0 <= k < |line| && line[k] == '\n';
      assert s[k] == '\n' && LineEnd(s) < |line|;
    } else {
      LineEndAt(line, rest);
      assert s[..|line|] == line;
    }
  }

  /** What one logged message alone is read as. */
  lemma OneBack(m: Msg, file: string, files: Files)
    requires GoodLine(file) && file !in files
    ensures ParseAll(m.sagaId, Text(RecordFor(m, file)), FilesWith(files, m, file)) == Ok([AsRead(m)]) <==> ReadsBack(m)
  {
    var r, files' := RecordFor(m, file), FilesWith(files, m, file);
    if ReadsBack(m) {
      GoodBack(m.sagaId, r, files');
    } else if IsTaskKind(m.kind) {
      BadTaskId(m, FileLine(r.file), files');
    } else if m.kind == StartSaga {
      BareStartAlone(m, files');
    } else {
      NothingElseWritten(m, files');
    }
  }

  lemma GoodBack(id: string, r: Record, files: Files)
    requires Sound(id, r, files)
    ensures ParseAll(id, Text(r), files) == Ok([AsRead(r.msg)])
  {
    FirstRecordBack(id, r, "", files);
    NothingParses(id, files);
    assert Text(r) + "" == Text(r) && [AsRead(r.msg)] + [] == [AsRead(r.msg)];
  }

  /** The first message parsed is the one its first line begins. */
  lemma FirstParsed(id: string, s: string, files: Files, line: string, body: string)
    requires Scan(s) == Some((line, body)) && ParseAll(id, s, files).Ok?
    ensures ParseMessage(id, line, body, files).Ok? && ParseAll(id, s, files).value != []
    ensures ParseAll(id, s, files).value[0] == ParseMessage(id, line, body, files).value.0
  {
  }

  lemma BareStartAlone(m: Msg, files: Files)
    requires m.kind == StartSaga
    ensures ParseAll(m.sagaId, Text(Record(m, None)), files).Err?
  {
    assert Text(Record(m, None)) == KindLine(StartSaga) + NEWLINE + "";
    KindLinesAreGood(StartSaga);
    LineRoundTrip(KindLine(StartSaga), "");
    assert ParseMessage(m.sagaId, "Start Saga", "", files).Err?;
  }

  lemma NothingElseWritten(m: Msg, files: Files)
    requires !HasFile(m.kind) && !ReadsBack(m)
    ensures ParseAll(m.sagaId, Text(Record(m, None)), files) != Ok([AsRead(m)])
  {
    var text := Text(Record(m, None));
    assert text == KindLine(m.kind) + NEWLINE + "";
    KindLinesAreGood(m.kind);
    LineRoundTrip(KindLine(m.kind), "");
    KindLineParses(m.sagaId, m.kind, "", files);
    if ParseAll(m.sagaId, text, files).Ok? { FirstParsed(m.sagaId, text, files, KindLine(m.kind), ""); }
  }

  lemma BadTaskId(m: Msg, fileLine: string, files: Files)
    requires IsTaskKind(m.kind) && !GoodLine(m.taskId)
    ensures ParseAll(m.sagaId, KindLine(m.kind) + NEWLINE + (m.taskId + NEWLINE + fileLine), files) != Ok([AsRead(m)])
  {
    var body := m.taskId + NEWLINE + fileLine;
    var text := KindLine(m.kind) + NEWLINE + body;
    KindLinesAreGood(m.kind);
    LineRoundTrip(KindLine(m.kind), body);
    BadTaskRead(m, body, fileLine, files);
    if ParseAll(m.sagaId, text, files).Ok? { FirstParsed(m.sagaId, text, files, KindLine(m.kind), body); }
  }

  lemma BadTaskRead(m: Msg, body: string, fileLine: string, files: Files)
    requires IsTaskKind(m.kind) && !GoodLine(m.taskId) && body == m.taskId + NEWLINE + fileLine
    ensures var r := ParseMessage(m.sagaId, KindLine(m.kind), body, files); r.Ok? ==> r.value.0.taskId != m.taskId
  {
    KindLineParses(m.sagaId, m.kind, body, files);
    BadLineReadsOtherwise(m.taskId, fileLine);
  }

  /** Writing a file under a new name leaves the earlier records sound. */
  lemma StillSound(id: string, r: Record, files: Files, m: Msg, file: string)
    requires Sound(id, r, files) && file !in files
    ensures Sound(id, r, FilesWith(files, m, file))
  {
  }

  /** After sound records, a message logged under a new good file name reads back with them exactly when it is one
      that does: a task message whose task's id is a good line, or EndSaga or AbortSaga with nothing attached. */
  lemma LoggedReadsBackIff(rs: seq<Record>, m: Msg, file: string, files: Files)
    requires forall i :: 0 <= i < |rs| ==> Sound(m.sagaId, rs[i], files)
    requires GoodLine(file) && file !in files
    ensures var read := ParseAll(m.sagaId, LogText(rs + [RecordFor(m, file)]), FilesWith(files, m, file));
      read == Ok(MsgsAsRead(rs) + [AsRead(m)]) <==> ReadsBack(m)
  {
    var r, files' := RecordFor(m, file), FilesWith(files, m, file);
    forall i | 0 <= i < |rs| ensures Sound(m.sagaId, rs[i], files') { StillSound(m.sagaId, rs[i], files, m, file); }
    LogTextAppend(rs, r);
    SoundPrefix(m.sagaId, rs, Text(r), files');
    OneBack(m, file, files);
    SameTail(MsgsAsRead(rs), ParseAll(m.sagaId, Text(r), files'), [AsRead(m)]);
  }

  lemma SameTail(a: seq<Msg>, r: Result<seq<Msg>, Corrupted>, b: seq<Msg>)
    ensures r.Ok? ==> (a + r.value == a + b <==> r == Ok(b))
  {
    if r.Ok? && a + r.value == a + b {
      assert (a + r.value)[|a|..] == r.value && (a + b)[|a|..] == b;
    }
  }

  /** Every log holds the text of its records, and their data is in place. */
  ghost predicate LogsOk(logs: map<string, string>, records: map<string, seq<Record>>, files: Files) {
    && logs.Keys == records.Keys
    && (forall id <- logs :: logs[id] == LogText(records[id]))
    && (forall id, i :: id in records && 0 <= i < |records[id]| ==> InPlace(records[id][i], files))
  }

  function LogOf(logs: map<string, string>, id: string): string { if id in logs then logs[id] else "" }

  ghost function RecordsOf(records: map<string, seq<Record>>, id: string): seq<Record> {
    if id in records then records[id] else []
  }

  /** Writing a record under a new file name leaves the earlier ones as they are. */
  lemma FreshFileKeeps(logs: map<string, string>, records: map<string, seq<Record>>, files: Files, file: string,
                       data: Bytes)
    requires LogsOk(logs, records, files) && file !in files
    ensures LogsOk(logs, records, files[file := data])
  {
    forall id, i | id in records && 0 <= i < |records[id]| ensures InPlace(records[id][i], files[file := data]) {
      assert InPlace(records[id][i], files);
    }
  }

  lemma AppendKeeps(logs: map<string, string>, records: map<string, seq<Record>>, files: Files, id: string, r: Record)
    requires LogsOk(logs, records, files) && InPlace(r, files)
    ensures LogsOk(logs[id := LogOf(logs, id) + Text(r)], records[id := RecordsOf(records, id) + [r]], files)
  {
    LogTextAppend(RecordsOf(records, id), r);
    var records' := records[id := RecordsOf(records, id) + [r]];
    forall k, i | k in records' && 0 <= i < |records'[k]| ensures InPlace(records'[k][i], files) {
      if k != id { assert k in records; }
    }
  }

  // -------------------------------------------------------------------------------------------
  // What recovery from the file makes of it.

  /** The same saga but for the data its tasks and its job carry. */
  ghost predicate SameFlags(a: State, b: State) {
    a.sagaId == b.sagaId && a.taskState == b.taskState && a.aborted == b.aborted && a.completed == b.completed
  }

  lemma ApplyAsRead(a: State, b: State, m: Msg)
    requires SameFlags(a, b)
    ensures Apply(a, m).Ok? <==> Apply(b, AsRead(m)).Ok?
    ensures Apply(a, m).Ok? ==> SameFlags(Apply(a, m).value, Apply(b, AsRead(m)).value)
    ensures Apply(a, m).Ok? && a == b && (IsTaskKind(m.kind) ==> m.data.Some?) ==> Apply(a, m) == Apply(b, AsRead(m))
  {
  }

  function ReadMsgs(msgs: seq<Msg>): seq<Msg> { seq(|msgs|, i requires 0 <= i < |msgs| => AsRead(msgs[i])) }

  ghost predicate TasksCarryData(msgs: seq<Msg>) {
    forall i :: 0 <= i < |msgs| && IsTaskKind(msgs[i].kind) ==> msgs[i].data.Some?
  }

  /** Replaying what was read gives the live flags, and the live data too if every task message carries data. */
  lemma {:induction false} ReplayAsRead(a: State, b: State, msgs: seq<Msg>)
    requires SameFlags(a, b)
    ensures Replay(a, msgs).Ok? <==> Replay(b, ReadMsgs(msgs)).Ok?
    ensures Replay(a, msgs).Ok? ==> SameFlags(Replay(a, msgs).value, Replay(b, ReadMsgs(msgs)).value)
    ensures Replay(a, msgs).Ok? && a == b && TasksCarryData(msgs) ==> Replay(b, ReadMsgs(msgs)) == Replay(a, msgs)
    decreases |msgs|
  {
    if msgs != [] {
      var m := msgs[0];
      assert ReadMsgs(msgs)[1..] == ReadMsgs(msgs[1..]);
      if m.kind == StartSaga {
        ReplayAsRead(a, b, msgs[1..]);
      } else {
        ApplyAsRead(a, b, m);
        if Apply(a, m).Ok? { ReplayAsRead(Apply(a, m).value, Apply(b, AsRead(m)).value, msgs[1..]); }
      }
    }
  }
}

module FileLog {
  import opened Wrappers
  import opened SagaSpec
  import opened FileLogSpec

  class FileSagaLog {
    var logs: map<string, string>
    var files: Files
    /** The records written to each log. */
    ghost var records: map<string, seq<Record>>

    ghost predicate Valid()
      reads this
    {
      LogsOk(logs, records, files)
    }

    constructor ()
      ensures Valid() && logs == map[] && files == map[]
    {
      logs, files, records := map[], map[], map[];
    }

    /** Writes the data, then appends to the log, which is made if there is none. `file` is the name the clock
        gives. */
    method StartSaga(id: string, job: Option<Bytes>, file: string)
      requires Valid() && file !in files
      modifies this
      ensures Valid() && files == old(files)[file := Contents(job)]
      ensures records == old(records)[id := RecordsOf(old(records), id) + [Record(StartSagaMsg(id, job), Some(file))]]
    {
      ghost var r := Record(StartSagaMsg(id, job), Some(file));
      FreshFileKeeps(logs, records, files, file, Contents(job));
      files := files[file := Contents(job)];
      AppendKeeps(logs, records, files, id, r);
      var text := KindLine(MsgKind.StartSaga) + NEWLINE + (file + NEWLINE);
      assert text == Text(r);
      logs := logs[id := LogOf(logs, id) + text];
      records := records[id := RecordsOf(records, id) + [r]];
    }

    /** Appends a message to the log of a started saga, the data of a task message to a file of its own first. */
    method LogMessage(m: Msg, file: string) returns (ok: bool)
      requires Valid() && file !in files
      modifies this
      ensures Valid() && ok == (m.sagaId in old(logs))
      ensures files == if ok then FilesWith(old(files), m, file) else old(files)
      ensures records == if ok then old(records)[m.sagaId := old(records)[m.sagaId] + [RecordFor(m, file)]]
                         else old(records)
    {
      ok := m.sagaId in logs;
      if !ok { return; }
      var text := KindLine(m.kind) + NEWLINE;
      if IsTaskKind(m.kind) {
        FreshFileKeeps(logs, records, files, file, Contents(m.data));
        files := files[file := Contents(m.data)];
        text := text + (m.taskId + NEWLINE + (file + NEWLINE));
      }
      AppendKeeps(logs, records, files, m.sagaId, RecordFor(m, file));
      assert text == Text(RecordFor(m, file));
      logs := logs[m.sagaId := LogOf(logs, m.sagaId) + text];
      records := records[m.sagaId := RecordsOf(records, m.sagaId) + [RecordFor(m, file)]];
    }

    /** All messages of a saga's log, in order: what was written, with absent data read as empty, if all names in it
        are good lines. */
    method GetMessages(id: string) returns (r: Result<seq<Msg>, Corrupted>)
      requires Valid()
      ensures id !in logs ==> r == Ok([])
      ensures id in logs && (forall i :: 0 <= i < |records[id]| ==> WellMade(id, records[id][i])) ==>
        r == Ok(MsgsAsRead(records[id]))
    {
      if id !in logs { return Ok([]); }
      if forall i :: 0 <= i < |records[id]| ==> WellMade(id, records[id][i]) { LogRoundTrip(id, records[id], files); }
      r := ReadLog(id, logs[id], files);
    }
  }

  ghost function Prepend(msgs: seq<Msg>, r: Result<seq<Msg>, Corrupted>): Result<seq<Msg>, Corrupted> {
    if r.Err? then r else Ok(msgs + r.value)
  }

  lemma PrependNone(r: Result<seq<Msg>, Corrupted>)
    ensures Prepend([], r) == r
  {
    if r.Ok? { assert [] + r.value == r.value; }
  }

  lemma PrependMore(msgs: seq<Msg>, m: Msg, r: Result<seq<Msg>, Corrupted>)
    ensures Prepend(msgs, Prepend([m], r)) == Prepend(msgs + [m], r)
  {
    if r.Ok? { assert msgs + ([m] + r.value) == msgs + [m] + r.value; }
  }

  /** Scans and parses until a scan finds no line, or a message is corrupt. */
  method ReadLog(id: string, text: string, files: Files) returns (r: Result<seq<Msg>, Corrupted>)
    ensures r == ParseAll(id, text, files)
  {
    var msgs, rest := [], text;
    PrependNone(ParseAll(id, text, files));
    var token := Scan(rest);
    while token.Some?
      invariant token == Scan(rest)
      invariant ParseAll(id, text, files) == Prepend(msgs, ParseAll(id, rest, files))
      decreases |rest|
    {
      var (line, body) := token.value;
      ScanShortens(rest);
      ParseShortens(id, line, body, files);
      var parsed := ParseMessage(id, line, body, files);
      if parsed.Err? { return Err(parsed.error); }
      PrependMore(msgs, parsed.value.0, ParseAll(id, parsed.value.1, files));
      msgs := msgs + [parsed.value.0];
      rest := parsed.value.1;
      token := Scan(rest);
    }
    assert msgs + [] == msgs;
    return Ok(msgs);
  }
}
