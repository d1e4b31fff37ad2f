/**
 * Reassembly of a chat reply into the flat `{text, code, output}` record that the
 * query route returns (app.py, the loop over `response.parts`).
 *
 * A reply is an ordered sequence of parts; each part may carry a text fragment,
 * an executable-code block and a code-execution result. Text fragments are
 * concatenated in order, the code field is overwritten by every part that carries
 * code (the last one wins), and the output field is overwritten only by a
 * non-empty execution output.
 */
module Reassembly {
  import opened Wrappers

  /** Language tag of a generated code block; an unset tag is the protobuf default. */
  datatype Language = LanguageUnspecified | Python

  /** The `executable_code` field of a part. */
  datatype CodeBlock = CodeBlock(language: Language, code: string)

  /** The `code_execution_result` field of a part. */
  datatype ExecutionResult = ExecutionResult(output: string)

  /** One part of a reply; an absent field is `None`. */
  datatype Part = Part(
    text: Option<string>,
    executableCode: Option<CodeBlock>,
    executionResult: Option<ExecutionResult>)

  /** The record the query route answers with. */
  datatype QueryResult = QueryResult(text: string, code: string, output: string)

  /** The record before the first part is seen: three empty strings. */
  const Initial := QueryResult("", "", "")

  /** The part has a truthy `text`: present and non-empty. */
  predicate HasText(p: Part) {
    p.text.Some? && p.text.value != ""
  }

  /**
   * The part has a truthy `executable_code`: present, and not the all-default
   * message (a protobuf message is falsy when none of its fields is set).
   */
  predicate CarriesCode(p: Part) {
    p.executableCode.Some?
    && (p.executableCode.value.language != LanguageUnspecified || p.executableCode.value.code != "")
  }

  /** The part has a truthy `code_execution_result` whose `output` is non-empty. */
  predicate ProducesOutput(p: Part) {
    p.executionResult.Some? && p.executionResult.value.output != ""
  }

  /** What one iteration of the loop does to the record. */
  function Absorb(r: QueryResult, p: Part): (r': QueryResult)
    ensures r'.text == r.text + TextOf(p)
    ensures r.output != "" ==> r'.output != ""
  {
    QueryResult(
      if HasText(p) then r.text + p.text.value else r.text,
      if CarriesCode(p) then p.executableCode.value.code else r.code,
      if ProducesOutput(p) then p.executionResult.value.output else r.output)
  }

  /** The record after the loop has run over all of `parts`, as a left fold. */
  function Reassemble(parts: seq<Part>): (r: QueryResult)
    ensures r.code == "" || exists k :: 0 <= k < |parts| && CarriesCode(parts[k]) && r.code == parts[k].executableCode.value.code
    ensures r.output == "" || exists k :: 0 <= k < |parts| && ProducesOutput(parts[k]) && r.output == parts[k].executionResult.value.output
    decreases |parts|
  {
    if parts == [] then Initial
    else Absorb(Reassemble(parts[..|parts| - 1]), parts[|parts| - 1])
  }

  /**
   * The loop of the query route: `result` starts as three empty strings and is
   * updated field by field for each part in order.
   */
  method ReassembleParts(parts: seq<Part>) returns (result: QueryResult)
    ensures result == Reassemble(parts)
  {
    var text, code, output := "", "", "";
    var i := 0;
    while i < |parts|
      invariant 0 <= i <= |parts|
      invariant QueryResult(text, code, output) == Reassemble(parts[..i])
    {
      var part := parts[i];
      if HasText(part) {
        text := text + part.text.value;
      }
      if CarriesCode(part) {
        code := part.executableCode.value.code;
      }
      if ProducesOutput(part) {
        output := part.executionResult.value.output;
      }
      assert parts[..i + 1][..i] == parts[..i];
      i := i + 1;
    }
    assert parts[..i] == parts;
    result := QueryResult(text, code, output);
  }

  // ----- Reference definitions, independent of the fold -----

  /** The text a part contributes: its fragment, or nothing. */
  function TextOf(p: Part): string {
    if p.text.Some? then p.text.value else ""
  }

  /** In-order concatenation of every part's text, from the front. */
  function AllText(parts: seq<Part>): string
    decreases |parts|
  {
    if parts == [] then "" else TextOf(parts[0]) + AllText(parts[1..])
  }

  lemma {:induction false} AllTextSnoc(parts: seq<Part>, p: Part)
    ensures AllText(parts + [p]) == AllText(parts) + TextOf(p)
    decreases |parts|
  {
    if parts == [] {
      assert parts + [p] == [p];
      assert AllText([p]) == TextOf(p) + AllText([]);
    } else {
      assert (parts + [p])[1..] == parts[1..] + [p];
      AllTextSnoc(parts[1..], p);
    }
  }

  /** The reassembled text is the in-order concatenation of every part's text. */
  lemma {:induction false} TextIsConcatenation(parts: seq<Part>)
    ensures Reassemble(parts).text == AllText(parts)
    decreases |parts|
  {
    if parts != [] {
      var init, last := parts[..|parts| - 1], parts[|parts| - 1];
      TextIsConcatenation(init);
      assert init + [last] == parts;
      AllTextSnoc(init, last);
    }
  }

  /** With no part carrying code, the code field stays empty. */
  lemma CodeEmptyWithoutCodeParts(parts: seq<Part>)
    requires forall i :: 0 <= i < |parts| ==> !CarriesCode(parts[i])
    ensures Reassemble(parts).code == ""
  {
  }

  /**
   * The code field is the code of the last part that carries code: whatever
   * earlier parts carried is discarded, not concatenated.
   */
  lemma {:induction false} CodeIsLastCarried(parts: seq<Part>, k: nat)
    requires k < |parts| && CarriesCode(parts[k])
    requires forall j :: k < j < |parts| ==> !CarriesCode(parts[j])
    ensures Reassemble(parts).code == parts[k].executableCode.value.code
    decreases |parts|
  {
    if k < |parts| - 1 {
      CodeIsLastCarried(parts[..|parts| - 1], k);
    }
  }

  /** With no part producing non-empty output, the output field stays empty. */
  lemma OutputEmptyWithoutOutputParts(parts: seq<Part>)
    requires forall i :: 0 <= i < |parts| ==> !ProducesOutput(parts[i])
    ensures Reassemble(parts).output == ""
  {
  }

  /**
   * The output field is the last non-empty execution output: a later part whose
   * execution result has an empty output does not overwrite it.
   */
  lemma {:induction false} OutputIsLastNonEmpty(parts: seq<Part>, k: nat)
    requires k < |parts| && ProducesOutput(parts[k])
    requires forall j :: k < j < |parts| ==> !ProducesOutput(parts[j])
    ensures Reassemble(parts).output == parts[k].executionResult.value.output
    decreases |parts|
  {
    if k < |parts| - 1 {
      OutputIsLastNonEmpty(parts[..|parts| - 1], k);
    }
  }

  /** Once some part has produced output, the output field is never empty again. */
  lemma {:induction false} OutputNeverCleared(parts: seq<Part>, k: nat)
    requires k < |parts| && ProducesOutput(parts[k])
    ensures Reassemble(parts).output != ""
    decreases |parts|
  {
    if k < |parts| - 1 {
      OutputNeverCleared(parts[..|parts| - 1], k);
    }
  }

  /**
   * A reply of three parts, {text "A"}, {code "x=1", text "B"} and
   * {code "x=2", output "2"}, reassembles to text "AB", code "x=2", output "2".
   */
  lemma ThreePartReply()
    ensures Reassemble([
      Part(Some("A"), None, None),
      Part(Some("B"), Some(CodeBlock(Python, "x=1")), None),
      Part(None, Some(CodeBlock(Python, "x=2")), Some(ExecutionResult("2")))])
      == QueryResult("AB", "x=2", "2")
  {
    var p1 := Part(Some("A"), None, None);
    var p2 := Part(Some("B"), Some(CodeBlock(Python, "x=1")), None);
    var p3 := Part(None, Some(CodeBlock(Python, "x=2")), Some(ExecutionResult("2")));
    var parts := [p1, p2, p3];
    assert [p1][..0] == [];
    assert Reassemble([p1]) == QueryResult("A", "", "");
    assert [p1, p2][..1] == [p1];
    assert "A" + "B" == "AB";
    assert Reassemble([p1, p2]) == QueryResult("AB", "x=1", "");
    assert parts[..2] == [p1, p2];
  }
}
