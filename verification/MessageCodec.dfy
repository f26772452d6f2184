/** The task and result messages of the performance test, and exactly which of them survive being
    printed and parsed. */
module MessageCodec {
  import opened Prelude
  import opened TextFields

  function Field(fields: map<string, string>, key: string): string {
    if key in fields then fields[key] else ""
  }

  // ---- tasks ----

  datatype TaskMessage = TaskMessage(taskId: string, imagePath: string, imageBytes: uint64, publishTsMs: uint64)

  function TaskPairs(m: TaskMessage): (ps: seq<Pair>)
    ensures |ps| == 4
  {
    [Pair("task_id", m.taskId), Pair("image_path", m.imagePath), Pair("image_bytes", ToDecimal(m.imageBytes)),
     Pair("publish_ts_ms", ToDecimal(m.publishTsMs))]
  }

  function SerializeTaskMessage(m: TaskMessage): string { Render(TaskPairs(m)) }

  function ParseTaskMessage(payload: string): Result<TaskMessage> {
    var fields := FieldsOf(Lines(payload));
    if Field(fields, "task_id") == "" || Field(fields, "image_path") == "" || Field(fields, "image_bytes") == ""
       || Field(fields, "publish_ts_ms") == "" then Err(ParseError)
    else
      Ok(TaskMessage(Field(fields, "task_id"), Field(fields, "image_path"), ParseUint64(Field(fields, "image_bytes")),
                     ParseUint64(Field(fields, "publish_ts_ms"))))
  }

  /** Required texts are there, and no text has a newline or a blank at either end. */
  predicate TaskSurvives(m: TaskMessage) {
    m.taskId != "" && m.imagePath != "" && Clean(m.taskId) && Clean(m.imagePath)
  }

  // ---- results ----

  datatype ResultMessage = ResultMessage(
    taskId: string, workerId: string, imagePath: string, outputPath: string, status: string, errorMessage: string,
    imageBytes: uint64, publishTsMs: uint64, workerReceiveTsMs: uint64, readDoneTsMs: uint64, processDoneTsMs: uint64,
    outputWriteDoneTsMs: uint64, cleanupDoneTsMs: uint64, resultPublishTsMs: uint64, outputDeleted: bool)

  function ResultPairs(m: ResultMessage): (ps: seq<Pair>)
    ensures |ps| == 15
  {
    [Pair("task_id", m.taskId), Pair("worker_id", m.workerId), Pair("image_path", m.imagePath),
     Pair("output_path", m.outputPath), Pair("status", m.status), Pair("error_message", m.errorMessage),
     Pair("image_bytes", ToDecimal(m.imageBytes)), Pair("publish_ts_ms", ToDecimal(m.publishTsMs)),
     Pair("worker_receive_ts_ms", ToDecimal(m.workerReceiveTsMs)), Pair("read_done_ts_ms", ToDecimal(m.readDoneTsMs)),
     Pair("process_done_ts_ms", ToDecimal(m.processDoneTsMs)),
     Pair("output_write_done_ts_ms", ToDecimal(m.outputWriteDoneTsMs)),
     Pair("cleanup_done_ts_ms", ToDecimal(m.cleanupDoneTsMs)), Pair("result_publish_ts_ms", ToDecimal(m.resultPublishTsMs)),
     Pair("output_deleted", BoolString(m.outputDeleted))]
  }

  function SerializeResultMessage(m: ResultMessage): string { Render(ResultPairs(m)) }

  function ParseResultMessage(payload: string): Result<ResultMessage> {
    var f := FieldsOf(Lines(payload));
    if Field(f, "task_id") == "" || Field(f, "worker_id") == "" || Field(f, "status") == "" then Err(ParseError)
    else
      Ok(ResultMessage(
           Field(f, "task_id"), Field(f, "worker_id"), Field(f, "image_path"), Field(f, "output_path"), Field(f, "status"),
           Field(f, "error_message"), ParseUint64(Field(f, "image_bytes")), ParseUint64(Field(f, "publish_ts_ms")),
           ParseUint64(Field(f, "worker_receive_ts_ms")), ParseUint64(Field(f, "read_done_ts_ms")),
           ParseUint64(Field(f, "process_done_ts_ms")), ParseUint64(Field(f, "output_write_done_ts_ms")),
           ParseUint64(Field(f, "cleanup_done_ts_ms")), ParseUint64(Field(f, "result_publish_ts_ms")),
           ParseBool(Field(f, "output_deleted"))))
  }

  predicate ResultSurvives(m: ResultMessage) {
    && m.taskId != "" && m.workerId != "" && m.status != ""
    && Clean(m.taskId) && Clean(m.workerId) && Clean(m.imagePath) && Clean(m.outputPath)
    && Clean(m.status) && Clean(m.errorMessage)
  }

  // ---- the keys are told apart ----

  /** The position of a key among the result's, found from its length and first letter. */
  function Position(key: string): int {
    if key == "" then -1
    else
      match |key|
      case 7 => 0
      case 9 => 1
      case 10 => 2
      case 11 => if key[0] == 'o' then 3 else 6
      case 6 => 4
      case 13 => if key[0] == 'e' then 5 else 7
      case 20 => if key[0] == 'w' then 8 else 13
      case 15 => 9
      case 18 => if key[0] == 'p' then 10 else 12
      case 23 => 11
      case 14 => 14
      case _ => -1
  }

  lemma FirstKeyPositions(m: ResultMessage)
    ensures forall i :: 0 <= i < 8 ==> Position(ResultPairs(m)[i].key) == i
  {
    var ps := ResultPairs(m);
    assert Position(ps[0].key) == 0 && Position(ps[1].key) == 1 && Position(ps[2].key) == 2 && Position(ps[3].key) == 3;
    assert Position(ps[4].key) == 4 && Position(ps[5].key) == 5 && Position(ps[6].key) == 6 && Position(ps[7].key) == 7;
  }

  lemma LastKeyPositions(m: ResultMessage)
    ensures forall i :: 8 <= i < 15 ==> Position(ResultPairs(m)[i].key) == i
  {
    var ps := ResultPairs(m);
    assert Position(ps[8].key) == 8 && Position(ps[9].key) == 9 && Position(ps[10].key) == 10 && Position(ps[11].key) == 11;
    assert Position(ps[12].key) == 12 && Position(ps[13].key) == 13 && Position(ps[14].key) == 14;
  }

  lemma ResultKeysDistinct(m: ResultMessage)
    ensures DistinctKeys(ResultPairs(m))
  {
    hide ResultPairs, Position;
    FirstKeyPositions(m);
    LastKeyPositions(m);
    assert forall i :: 0 <= i < 15 ==> Position(ResultPairs(m)[i].key) == i;
  }

  lemma TaskKeysDistinct(m: TaskMessage)
    ensures DistinctKeys(TaskPairs(m))
  {
    var ps := TaskPairs(m);
    assert |ps[0].key| == 7 && |ps[1].key| == 10 && |ps[2].key| == 11 && |ps[3].key| == 13;
  }

  /** A name made of lower-case letters and underscores is a good key. */
  predicate Plain(k: string) { k != "" && forall i :: 0 <= i < |k| ==> 'a' <= k[i] <= 'z' || k[i] == '_' }

  lemma PlainIsGood(k: string)
    requires Plain(k)
    ensures GoodKey(k)
  {
  }

  lemma TaskKeysGood(m: TaskMessage)
    ensures forall i :: 0 <= i < 4 ==> GoodKey(TaskPairs(m)[i].key)
  {
    PlainIsGood("task_id");
    PlainIsGood("image_path");
    PlainIsGood("image_bytes");
    PlainIsGood("publish_ts_ms");
  }

  lemma ResultTextKeysGood()
    ensures GoodKey("task_id") && GoodKey("worker_id") && GoodKey("image_path") && GoodKey("output_path")
    ensures GoodKey("status") && GoodKey("error_message")
  {
    hide GoodKey;
    PlainIsGood("task_id");
    PlainIsGood("worker_id");
    PlainIsGood("image_path");
    PlainIsGood("output_path");
    PlainIsGood("status");
    PlainIsGood("error_message");
  }

  lemma ResultNumberKeysGood()
    ensures GoodKey("image_bytes") && GoodKey("publish_ts_ms") && GoodKey("worker_receive_ts_ms")
    ensures GoodKey("read_done_ts_ms") && GoodKey("process_done_ts_ms")
  {
    hide GoodKey;
    PlainIsGood("image_bytes");
    PlainIsGood("publish_ts_ms");
    PlainIsGood("worker_receive_ts_ms");
    PlainIsGood("read_done_ts_ms");
    PlainIsGood("process_done_ts_ms");
  }

  lemma ResultLastKeysGood()
    ensures GoodKey("output_write_done_ts_ms") && GoodKey("cleanup_done_ts_ms") && GoodKey("result_publish_ts_ms")
    ensures GoodKey("output_deleted")
  {
    hide GoodKey;
    PlainIsGood("output_write_done_ts_ms");
    PlainIsGood("cleanup_done_ts_ms");
    PlainIsGood("result_publish_ts_ms");
    PlainIsGood("output_deleted");
  }

  lemma BoolTexts(b: bool)
    ensures ParseBool(BoolString(b)) == b && Clean(BoolString(b))
  {
    assert |"0"| == 1 && "0"[0] == '0' && "1"[0] == '1' && |"true"| == 4 && |"TRUE"| == 4 && |"yes"| == 3;
  }

  lemma ResultPairsClean(m: ResultMessage)
    requires ResultSurvives(m)
    ensures CleanPairs(ResultPairs(m))
  {
    ResultTextKeysGood();
    ResultNumberKeysGood();
    ResultLastKeysGood();
    BoolTexts(m.outputDeleted);
    hide GoodKey, Clean, BoolString, ToDecimal, ParseUint64, ParseBool;
    NumbersComeBack(m.imageBytes);
    NumbersComeBack(m.publishTsMs);
    NumbersComeBack(m.workerReceiveTsMs);
    NumbersComeBack(m.readDoneTsMs);
    NumbersComeBack(m.processDoneTsMs);
    NumbersComeBack(m.outputWriteDoneTsMs);
    NumbersComeBack(m.cleanupDoneTsMs);
    NumbersComeBack(m.resultPublishTsMs);
  }

  // ---- round trips ----

  /** Every pair printed is found again. */
  lemma PairsFound(ps: seq<Pair>)
    requires CleanPairs(ps) && DistinctKeys(ps)
    ensures forall i :: 0 <= i < |ps| ==> Field(FieldsOf(Lines(Render(ps))), ps[i].key) == ps[i].value
  {
    RenderedFieldsComeBack(ps);
    forall i | 0 <= i < |ps| ensures Field(FieldsOf(Lines(Render(ps))), ps[i].key) == ps[i].value {
      PairMapLookup(ps, i);
    }
  }

  lemma FieldsAreClean(payload: string, key: string)
    ensures Clean(Field(FieldsOf(Lines(payload)), key))
  {
    NoNewlineInLines(payload);
    ParsedValuesAreClean(Lines(payload));
  }

  lemma TaskComesBack(m: TaskMessage)
    requires TaskSurvives(m)
    ensures ParseTaskMessage(SerializeTaskMessage(m)) == Ok(m)
  {
    var ps := TaskPairs(m);
    NumbersComeBack(m.imageBytes);
    NumbersComeBack(m.publishTsMs);
    TaskKeysGood(m);
    TaskKeysDistinct(m);
    PairsFound(ps);
    var f := FieldsOf(Lines(Render(ps)));
    assert Field(f, ps[0].key) == m.taskId && Field(f, ps[1].key) == m.imagePath;
    assert Field(f, ps[2].key) == ToDecimal(m.imageBytes) && Field(f, ps[3].key) == ToDecimal(m.publishTsMs);
  }

  /** A task message comes back exactly when its texts are non-empty and have neither a newline nor a
      blank at either end; any other character, '=' too, is allowed. */
  lemma TaskRoundTripIff(m: TaskMessage)
    ensures ParseTaskMessage(SerializeTaskMessage(m)) == Ok(m) <==> TaskSurvives(m)
  {
    if TaskSurvives(m) {
      TaskComesBack(m);
    } else {
      FieldsAreClean(SerializeTaskMessage(m), "task_id");
      FieldsAreClean(SerializeTaskMessage(m), "image_path");
    }
  }

  /** Every field of a result, by its key. */
  ghost predicate Carries(f: map<string, string>, m: ResultMessage) {
    forall i :: 0 <= i < 15 ==> Field(f, ResultPairs(m)[i].key) == ResultPairs(m)[i].value
  }

  lemma CarriedTexts(f: map<string, string>, m: ResultMessage)
    requires Carries(f, m)
    ensures Field(f, "task_id") == m.taskId && Field(f, "worker_id") == m.workerId && Field(f, "image_path") == m.imagePath
    ensures Field(f, "output_path") == m.outputPath && Field(f, "status") == m.status
    ensures Field(f, "error_message") == m.errorMessage && ParseBool(Field(f, "output_deleted")) == m.outputDeleted
  {
    var ps := ResultPairs(m);
    assert Field(f, ps[0].key) == m.taskId && Field(f, ps[1].key) == m.workerId && Field(f, ps[2].key) == m.imagePath;
    assert Field(f, ps[3].key) == m.outputPath && Field(f, ps[4].key) == m.status && Field(f, ps[5].key) == m.errorMessage;
    assert Field(f, ps[14].key) == BoolString(m.outputDeleted);
    BoolTexts(m.outputDeleted);
  }

  lemma CarriedNumbers(f: map<string, string>, m: ResultMessage)
    requires Carries(f, m)
    ensures ParseUint64(Field(f, "image_bytes")) == m.imageBytes
    ensures ParseUint64(Field(f, "publish_ts_ms")) == m.publishTsMs
    ensures ParseUint64(Field(f, "worker_receive_ts_ms")) == m.workerReceiveTsMs
    ensures ParseUint64(Field(f, "read_done_ts_ms")) == m.readDoneTsMs
    ensures ParseUint64(Field(f, "process_done_ts_ms")) == m.processDoneTsMs
    ensures ParseUint64(Field(f, "output_write_done_ts_ms")) == m.outputWriteDoneTsMs
    ensures ParseUint64(Field(f, "cleanup_done_ts_ms")) == m.cleanupDoneTsMs
    ensures ParseUint64(Field(f, "result_publish_ts_ms")) == m.resultPublishTsMs
  {
    hide ToDecimal, ParseUint64, Clean, Field;
    var ps := ResultPairs(m);
    NumbersComeBack(m.imageBytes);
    NumbersComeBack(m.publishTsMs);
    NumbersComeBack(m.workerReceiveTsMs);
    NumbersComeBack(m.readDoneTsMs);
    NumbersComeBack(m.processDoneTsMs);
    NumbersComeBack(m.outputWriteDoneTsMs);
    NumbersComeBack(m.cleanupDoneTsMs);
    NumbersComeBack(m.resultPublishTsMs);
    assert Field(f, ps[6].key) == ToDecimal(m.imageBytes) && Field(f, ps[7].key) == ToDecimal(m.publishTsMs);
    assert Field(f, ps[8].key) == ToDecimal(m.workerReceiveTsMs) && Field(f, ps[9].key) == ToDecimal(m.readDoneTsMs);
    assert Field(f, ps[10].key) == ToDecimal(m.processDoneTsMs) && Field(f, ps[11].key) == ToDecimal(m.outputWriteDoneTsMs);
    assert Field(f, ps[12].key) == ToDecimal(m.cleanupDoneTsMs) && Field(f, ps[13].key) == ToDecimal(m.resultPublishTsMs);
  }

  lemma ResultComesBack(m: ResultMessage)
    requires ResultSurvives(m)
    ensures ParseResultMessage(SerializeResultMessage(m)) == Ok(m)
  {
    ResultPairsClean(m);
    ResultKeysDistinct(m);
    PairsFound(ResultPairs(m));
    var f := FieldsOf(Lines(Render(ResultPairs(m))));
    hide ResultPairs, FieldsOf, Lines, Render, ParseUint64, Field, ParseBool, CleanPairs, DistinctKeys;
    CarriedTexts(f, m);
    CarriedNumbers(f, m);
  }

  /** A result message comes back exactly when its three required texts are non-empty and none of its
      six texts has a newline or a blank at either end; the other three may be empty. */
  lemma ResultRoundTripIff(m: ResultMessage)
    ensures ParseResultMessage(SerializeResultMessage(m)) == Ok(m) <==> ResultSurvives(m)
  {
    if ResultSurvives(m) {
      ResultComesBack(m);
    } else {
      var payload := SerializeResultMessage(m);
      FieldsAreClean(payload, "task_id");
      FieldsAreClean(payload, "worker_id");
      FieldsAreClean(payload, "image_path");
      FieldsAreClean(payload, "output_path");
      FieldsAreClean(payload, "status");
      FieldsAreClean(payload, "error_message");
      hide ResultPairs, FieldsOf, Lines, Render, ParseUint64, Field, ParseBool;
    }
  }

  // ---- which payloads are refused ----

  predicate Given(f: map<string, string>, key: string) { key in f && f[key] != "" }

  function TextOrEmpty(f: map<string, string>, key: string): string { if key in f then f[key] else "" }

  function NumberOrZero(f: map<string, string>, key: string): uint64 { if key in f then ParseUint64(f[key]) else 0 }

  lemma NoNumberIsZero()
    ensures ParseUint64("") == 0
  {
  }

  /** Of the payloads made of clean lines, whoever wrote them, a task message is accepted exactly when its
      four fields are given; and it then holds them. */
  lemma TaskAcceptedIff(ps: seq<Pair>)
    requires CleanPairs(ps)
    ensures var f, r := PairMap(ps), ParseTaskMessage(Render(ps));
            && (r.Ok? <==> Given(f, "task_id") && Given(f, "image_path") && Given(f, "image_bytes") && Given(f, "publish_ts_ms"))
            && (r.Err? ==> r.error == ParseError)
            && (r.Ok? ==> r.value == TaskMessage(f["task_id"], f["image_path"], ParseUint64(f["image_bytes"]),
                                                 ParseUint64(f["publish_ts_ms"])))
  {
    hide PairMap, Render, Lines, FieldsOf, ParseUint64, CleanPairs;
    RenderedFieldsComeBack(ps);
  }

  /** A result message needs its identifier, its worker and its status; a missing text is then empty, a
      missing number zero and a missing flag false. */
  lemma ResultAcceptedIff(ps: seq<Pair>)
    requires CleanPairs(ps)
    ensures var f, r := PairMap(ps), ParseResultMessage(Render(ps));
            && (r.Ok? <==> Given(f, "task_id") && Given(f, "worker_id") && Given(f, "status"))
            && (r.Err? ==> r.error == ParseError)
            && (r.Ok? ==>
                  && r.value.taskId == f["task_id"] && r.value.workerId == f["worker_id"] && r.value.status == f["status"]
                  && r.value.imagePath == TextOrEmpty(f, "image_path") && r.value.outputPath == TextOrEmpty(f, "output_path")
                  && r.value.errorMessage == TextOrEmpty(f, "error_message")
                  && r.value.imageBytes == NumberOrZero(f, "image_bytes")
                  && r.value.publishTsMs == NumberOrZero(f, "publish_ts_ms")
                  && r.value.workerReceiveTsMs == NumberOrZero(f, "worker_receive_ts_ms")
                  && r.value.readDoneTsMs == NumberOrZero(f, "read_done_ts_ms")
                  && r.value.processDoneTsMs == NumberOrZero(f, "process_done_ts_ms")
                  && r.value.outputWriteDoneTsMs == NumberOrZero(f, "output_write_done_ts_ms")
                  && r.value.cleanupDoneTsMs == NumberOrZero(f, "cleanup_done_ts_ms")
                  && r.value.resultPublishTsMs == NumberOrZero(f, "result_publish_ts_ms")
                  && (r.value.outputDeleted <==> TextOrEmpty(f, "output_deleted") in ["1", "true", "TRUE", "yes"]))
  {
    hide PairMap, Render, Lines, FieldsOf, ParseUint64, CleanPairs;
    RenderedFieldsComeBack(ps);
    NoNumberIsZero();
    ResultTexts(PairMap(ps));
  }

  lemma ResultTexts(f: map<string, string>)
    ensures forall k :: Field(f, k) == TextOrEmpty(f, k)
    ensures forall k :: Given(f, k) <==> Field(f, k) != ""
  {
  }

  // ---- task identifiers ----

  /** `setw(4)` with `setfill('0')`. */
  function ZeroPadded(s: string): string
    decreases 4 - |s|
  {
    if |s| >= 4 then s else ZeroPadded("0" + s)
  }

  function TaskId(scenario: string, index: nat): string { scenario + "-task-" + ZeroPadded(ToDecimal(index + 1)) }

  lemma {:induction false} LeadingZero(s: string)
    requires forall i :: 0 <= i < |s| ==> IsDigit(s[i])
    ensures DigitsValue("0" + s) == DigitsValue(s)
  {
    if s == "" {
      assert ("0" + s)[..0] == "";
    } else {
      assert ("0" + s)[..|s|] == "0" + s[..|s| - 1];
      LeadingZero(s[..|s| - 1]);
    }
  }

  lemma {:induction false} PaddingKeepsValue(s: string)
    requires forall i :: 0 <= i < |s| ==> IsDigit(s[i])
    ensures forall i :: 0 <= i < |ZeroPadded(s)| ==> IsDigit(ZeroPadded(s)[i])
    ensures DigitsValue(ZeroPadded(s)) == DigitsValue(s)
    decreases 4 - |s|
  {
    if |s| < 4 {
      LeadingZero(s);
      PaddingKeepsValue("0" + s);
    }
  }

  /** Within a scenario a task identifier tells its index, so results can be matched by it. */
  lemma TaskIdTellsIndex(scenario: string, i: nat, j: nat)
    ensures TaskId(scenario, i) == TaskId(scenario, j) <==> i == j
  {
    if TaskId(scenario, i) == TaskId(scenario, j) {
      var prefix := scenario + "-task-";
      assert TaskId(scenario, i)[|prefix|..] == ZeroPadded(ToDecimal(i + 1));
      assert TaskId(scenario, j)[|prefix|..] == ZeroPadded(ToDecimal(j + 1));
      DecimalValue(i + 1);
      DecimalValue(j + 1);
      PaddingKeepsValue(ToDecimal(i + 1));
      PaddingKeepsValue(ToDecimal(j + 1));
    }
  }
}
