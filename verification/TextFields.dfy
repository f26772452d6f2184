/** The text layer of the performance messages: trimming, lines, `key=value` fields and numbers. */
module TextFields {
  import opened Prelude

  // ---- trimming ----

  predicate Blank(c: char) { c == ' ' || c == '\t' || c == '\r' || c == '\n' }

  function TrimLeft(s: string): string { if s != "" && Blank(s[0]) then TrimLeft(s[1..]) else s }

  function TrimRight(s: string): string {
    if s != "" && Blank(s[|s| - 1]) then TrimRight(s[..|s| - 1]) else s
  }

  function Trimmed(s: string): string { TrimRight(TrimLeft(s)) }

  /** The two index loops of `Trim`. */
  method Trim(value: string) returns (r: string)
    ensures r == Trimmed(value)
  {
    var begin := 0;
    while begin < |value| && Blank(value[begin])
      invariant begin <= |value| && TrimLeft(value[begin..]) == TrimLeft(value)
    {
      assert value[begin..][1..] == value[begin + 1..];
      begin := begin + 1;
    }
    assert TrimLeft(value) == value[begin..];
    var end := |value|;
    assert value[begin..end] == value[begin..];
    while end > begin && Blank(value[end - 1])
      invariant begin <= end <= |value| && TrimRight(value[begin..end]) == TrimRight(value[begin..])
    {
      assert value[begin..end][..end - begin - 1] == value[begin..end - 1];
      end := end - 1;
    }
    r := value[begin..end];
  }

  predicate NoOuterBlank(s: string) { s == "" || (!Blank(s[0]) && !Blank(s[|s| - 1])) }

  lemma {:induction false} TrimLeftCuts(s: string) returns (i: nat)
    ensures i <= |s| && TrimLeft(s) == s[i..] && (i < |s| ==> !Blank(s[i]))
    ensures forall k :: 0 <= k < i ==> Blank(s[k])
  {
    if s != "" && Blank(s[0]) {
      i := TrimLeftCuts(s[1..]);
      assert s[1..][i..] == s[i + 1..];
      i := i + 1;
    } else {
      i := 0;
    }
  }

  lemma {:induction false} TrimRightCuts(s: string) returns (j: nat)
    ensures j <= |s| && TrimRight(s) == s[..j] && (j > 0 ==> !Blank(s[j - 1]))
    ensures forall k :: j <= k < |s| ==> Blank(s[k])
  {
    if s != "" && Blank(s[|s| - 1]) {
      j := TrimRightCuts(s[..|s| - 1]);
      assert s[..|s| - 1][..j] == s[..j];
    } else {
      j := |s|;
    }
  }

  /** Trimming cuts a stretch out of the text, has no blank at either end, and loses only blanks. */
  lemma TrimCuts(s: string) returns (i: nat, j: nat)
    ensures i <= j <= |s| && Trimmed(s) == s[i..j] && NoOuterBlank(s[i..j])
    ensures forall k :: 0 <= k < i || j <= k < |s| ==> Blank(s[k])
  {
    i := TrimLeftCuts(s);
    var n := TrimRightCuts(s[i..]);
    j := i + n;
    assert s[i..][..n] == s[i..j];
  }

  /** What is left alone by trimming has no blank at either end, and nothing else. */
  lemma TrimFixesIff(s: string)
    ensures Trimmed(s) == s <==> NoOuterBlank(s)
  {
    var i, j := TrimCuts(s);
    if NoOuterBlank(s) && s != "" { assert i == 0 && j == |s|; }
  }

  // ---- lines ----

  /** Where the character first occurs, or the length. */
  function IndexOf(s: string, c: char): (i: nat)
    ensures i <= |s| && c !in s[..i] && (i < |s| ==> s[i] == c)
  {
    if s == "" then 0 else if s[0] == c then 0 else 1 + IndexOf(s[1..], c)
  }

  lemma IndexOfJoin(s: string, c: char, t: string)
    requires c !in s
    ensures IndexOf(s + [c] + t, c) == |s|
  {
    var whole := s + [c] + t;
    var i := IndexOf(whole, c);
    assert forall k :: 0 <= k < i ==> whole[k] == whole[..i][k] && whole[..i][k] in whole[..i];
    assert forall k :: 0 <= k < |s| ==> whole[k] == s[k] && s[k] in s;
    assert whole[|s|] == c;
  }

  /** The lines that `getline` reads: a final newline opens no further line. */
  function Lines(s: string): seq<string>
    decreases |s|
  {
    if s == "" then []
    else
      var i := IndexOf(s, '\n');
      if i == |s| then [s] else [s[..i]] + Lines(s[i + 1..])
  }

  lemma {:induction false} NoNewlineInLines(s: string)
    ensures forall line :: line in Lines(s) ==> '\n' !in line
    decreases |s|
  {
    if s != "" {
      var i := IndexOf(s, '\n');
      if i < |s| { NoNewlineInLines(s[i + 1..]); }
    }
  }

  // ---- fields ----

  datatype Pair = Pair(key: string, value: string)

  /** The first '=' splits; a line without one or with an empty key says nothing. */
  function SplitLine(line: string): Option<Pair> {
    var i := IndexOf(line, '=');
    if i == |line| || Trimmed(line[..i]) == "" then None
    else Some(Pair(Trimmed(line[..i]), Trimmed(line[i + 1..])))
  }

  function AddLine(fields: map<string, string>, line: string): map<string, string> {
    match SplitLine(line)
    case None => fields
    case Some(p) => fields[p.key := p.value]
  }

  /** Of several lines with one key the last decides. */
  function FieldsOf(lines: seq<string>): map<string, string> {
    if lines == [] then map[] else AddLine(FieldsOf(lines[..|lines| - 1]), lines[|lines| - 1])
  }

  lemma FieldsAppend(lines: seq<string>, line: string)
    ensures FieldsOf(lines + [line]) == AddLine(FieldsOf(lines), line)
  {
    assert (lines + [line])[..|lines|] == lines;
  }

  /** What one line does to the map. */
  method AddField(fields: map<string, string>, line: string) returns (updated: map<string, string>)
    ensures updated == AddLine(fields, line)
  {
    updated := fields;
    var delimiter := IndexOf(line, '=');
    if delimiter < |line| {
      var key := Trim(line[..delimiter]);
      var value := Trim(line[delimiter + 1..]);
      if key != "" {
        updated := fields[key := value];
      }
    }
  }

  method ParseKeyValuePayload(payload: string) returns (fields: map<string, string>)
    ensures fields == FieldsOf(Lines(payload))
  {
    assert FieldsOf([]) == map[] && Lines("") == [];
    hide FieldsOf, AddLine, IndexOf, Lines;
    fields := map[];
    var rest := payload;
    ghost var done: seq<string> := [];
    while rest != ""
      invariant Lines(payload) == done + Lines(rest) && fields == FieldsOf(done)
      decreases |rest|
    {
      var end := IndexOf(rest, '\n');
      var line := rest[..end];
      FirstLine(rest);
      rest := if end == |rest| then "" else rest[end + 1..];
      FieldsAppend(done, line);
      Reassociate(done, [line], Lines(rest));
      done := done + [line];
      fields := AddField(fields, line);
    }
    assert done == Lines(payload);
  }

  lemma FirstLine(rest: string)
    requires rest != ""
    ensures var end := IndexOf(rest, '\n');
            Lines(rest) == [rest[..end]] + Lines(if end == |rest| then "" else rest[end + 1..])
  {
    assert Lines("") == [] && rest[..|rest|] == rest;
  }

  /** What a parsed value can be at all. */
  predicate Clean(s: string) { NoOuterBlank(s) && '\n' !in s }

  lemma {:induction false} ParsedValuesAreClean(lines: seq<string>)
    requires forall line :: line in lines ==> '\n' !in line
    ensures forall k :: k in FieldsOf(lines) ==> Clean(FieldsOf(lines)[k])
  {
    if lines != [] {
      var n := |lines| - 1;
      ParsedValuesAreClean(lines[..n]);
      var line := lines[n];
      var d := IndexOf(line, '=');
      if d < |line| {
        var i, j := TrimCuts(line[d + 1..]);
        var value := Trimmed(line[d + 1..]);
        assert forall k :: 0 <= k < |value| ==> value[k] == line[d + 1 + i + k];
        assert line in lines && Clean(value);
      }
      assert lines[..n] <= lines;
    }
  }

  // ---- rendering ----

  predicate GoodKey(k: string) { k != "" && Clean(k) && '=' !in k }

  function RenderLine(p: Pair): string { p.key + "=" + p.value }

  function Render(ps: seq<Pair>): string {
    if ps == [] then "" else RenderLine(ps[0]) + "\n" + Render(ps[1..])
  }

  lemma LineComesBack(p: Pair)
    requires GoodKey(p.key) && Clean(p.value)
    ensures SplitLine(RenderLine(p)) == Some(p) && '\n' !in RenderLine(p)
  {
    IndexOfJoin(p.key, '=', p.value);
    var line := RenderLine(p);
    assert line == p.key + ['='] + p.value;
    assert line[..|p.key|] == p.key && line[|p.key| + 1..] == p.value;
    TrimFixesIff(p.key);
    TrimFixesIff(p.value);
  }

  /** The pairs as a map; of several with one key the last decides. */
  function PairMap(ps: seq<Pair>): map<string, string> {
    if ps == [] then map[] else PairMap(ps[..|ps| - 1])[ps[|ps| - 1].key := ps[|ps| - 1].value]
  }

  lemma PairMapAppend(ps: seq<Pair>, p: Pair)
    ensures PairMap(ps + [p]) == PairMap(ps)[p.key := p.value]
  {
    assert (ps + [p])[..|ps|] == ps;
  }

  ghost predicate CleanPairs(ps: seq<Pair>) {
    forall i :: 0 <= i < |ps| ==> GoodKey(ps[i].key) && Clean(ps[i].value)
  }

  lemma LinesOfRender(ps: seq<Pair>)
    requires CleanPairs(ps) && ps != []
    ensures Lines(Render(ps)) == [RenderLine(ps[0])] + Lines(Render(ps[1..]))
  {
    var line := RenderLine(ps[0]);
    var text := Render(ps);
    LineComesBack(ps[0]);
    assert text == line + ['\n'] + Render(ps[1..]);
    hide RenderLine, Render;
    IndexOfJoin(line, '\n', Render(ps[1..]));
    assert text[..|line|] == line && text[|line| + 1..] == Render(ps[1..]);
  }

  /** The first line gives the first pair. */
  lemma FirstPair(done: seq<Pair>, lines: seq<string>, ps: seq<Pair>)
    requires CleanPairs(ps) && ps != [] && FieldsOf(lines) == PairMap(done)
    ensures FieldsOf(lines + [RenderLine(ps[0])]) == PairMap(done + [ps[0]])
  {
    var line := RenderLine(ps[0]);
    LineComesBack(ps[0]);
    FieldsAppend(lines, line);
    PairMapAppend(done, ps[0]);
    hide FieldsOf, PairMap, RenderLine, SplitLine;
  }

  lemma {:induction false} PairsComeBack(done: seq<Pair>, lines: seq<string>, ps: seq<Pair>)
    requires CleanPairs(ps) && FieldsOf(lines) == PairMap(done)
    ensures FieldsOf(lines + Lines(Render(ps))) == PairMap(done + ps)
    decreases |ps|
  {
    assert Lines(Render([])) == [];
    hide FieldsOf, PairMap, Lines, Render, RenderLine;
    if ps == [] {
      assert lines + [] == lines && done + ps == done;
    } else {
      var first, rest := RenderLine(ps[0]), Lines(Render(ps[1..]));
      LinesOfRender(ps);
      FirstPair(done, lines, ps);
      PairsComeBack(done + [ps[0]], lines + [first], ps[1..]);
      Reassociate(lines, [first], rest);
      Reassociate(done, [ps[0]], ps[1..]);
      HeadAndTail(ps);
    }
  }

  /** Rendering clean pairs and parsing the text gives them back. */
  lemma RenderedFieldsComeBack(ps: seq<Pair>)
    requires CleanPairs(ps)
    ensures FieldsOf(Lines(Render(ps))) == PairMap(ps)
  {
    PairsComeBack([], [], ps);
    assert [] + Lines(Render(ps)) == Lines(Render(ps));
    assert [] + ps == ps;
  }

  ghost predicate DistinctKeys(ps: seq<Pair>) { forall i, j :: 0 <= i < j < |ps| ==> ps[i].key != ps[j].key }

  lemma {:induction false} PairMapLookup(ps: seq<Pair>, i: nat)
    requires DistinctKeys(ps) && i < |ps|
    ensures ps[i].key in PairMap(ps) && PairMap(ps)[ps[i].key] == ps[i].value
  {
    if i < |ps| - 1 { PairMapLookup(ps[..|ps| - 1], i); }
  }

  // ---- numbers ----

  predicate IsDigit(c: char) { '0' <= c <= '9' }

  function ValueOf(c: char): nat
    requires IsDigit(c)
  {
    c as int - '0' as int
  }

  function Digit(n: nat): (c: char)
    requires n < 10
    ensures IsDigit(c) && ValueOf(c) == n
  {
    ('0' as int + n) as char
  }

  function ToDecimal(n: nat): string { if n < 10 then [Digit(n)] else ToDecimal(n / 10) + [Digit(n % 10)] }

  function DigitsValue(s: string): nat
    requires forall i :: 0 <= i < |s| ==> IsDigit(s[i])
  {
    if s == "" then 0 else DigitsValue(s[..|s| - 1]) * 10 + ValueOf(s[|s| - 1])
  }

  lemma {:induction false} DecimalValue(n: nat)
    ensures ToDecimal(n) != "" && (forall i :: 0 <= i < |ToDecimal(n)| ==> IsDigit(ToDecimal(n)[i])) && DigitsValue(ToDecimal(n)) == n
  {
    var s := ToDecimal(n);
    if n < 10 {
      assert DigitsValue(s[..0]) == 0;
    } else {
      DecimalValue(n / 10);
      assert s[..|s| - 1] == ToDecimal(n / 10);
    }
  }

  /** `isspace` in the C locale. */
  predicate Space(c: char) { Blank(c) || c == 11 as char || c == 12 as char }

  function SkipSpace(s: string): string { if s != "" && Space(s[0]) then SkipSpace(s[1..]) else s }

  function LeadingDigits(s: string): (r: string)
    ensures forall i :: 0 <= i < |r| ==> IsDigit(r[i])
  {
    if s != "" && IsDigit(s[0]) then [s[0]] + LeadingDigits(s[1..]) else ""
  }

  /** `strtoull` to base 10: blanks, an optional sign, digits; too large saturates, a minus wraps. */
  function ParseUint64(s: string): uint64 {
    var t := SkipSpace(s);
    var signed := t != "" && (t[0] == '-' || t[0] == '+');
    var v := DigitsValue(LeadingDigits(if signed then t[1..] else t));
    if v >= TWO_TO_THE_64 then TWO_TO_THE_64 - 1
    else if signed && t[0] == '-' then (TWO_TO_THE_64 - v) % TWO_TO_THE_64
    else v
  }

  lemma {:induction false} AllDigitsLead(s: string)
    requires forall i :: 0 <= i < |s| ==> IsDigit(s[i])
    ensures LeadingDigits(s) == s
  {
    if s != "" { AllDigitsLead(s[1..]); }
  }

  /** Printing and parsing a 64-bit number gives it back, and the text is a clean value. */
  lemma NumbersComeBack(n: uint64)
    ensures ParseUint64(ToDecimal(n)) == n && Clean(ToDecimal(n)) && ToDecimal(n) != ""
  {
    hide ToDecimal, DigitsValue, LeadingDigits;
    DecimalValue(n);
    AllDigitsLead(ToDecimal(n));
  }

  /** Numbers of any size: the largest value stands for all that do not fit, and a sign wraps. */
  lemma NumbersSaturate(n: nat)
    ensures ParseUint64(ToDecimal(n)) == if n < TWO_TO_THE_64 then n else TWO_TO_THE_64 - 1
    ensures ParseUint64("-" + ToDecimal(n))
         == if n < TWO_TO_THE_64 then (TWO_TO_THE_64 - n) % TWO_TO_THE_64 else TWO_TO_THE_64 - 1
  {
    hide ToDecimal, DigitsValue, LeadingDigits;
    DecimalValue(n);
    var s := ToDecimal(n);
    AllDigitsLead(s);
    assert SkipSpace("-" + s) == "-" + s && ("-" + s)[1..] == s;
    assert SkipSpace(s) == s;
  }

  predicate ParseBool(s: string) { s == "1" || s == "true" || s == "TRUE" || s == "yes" }

  function BoolString(b: bool): string { if b then "1" else "0" }
}
