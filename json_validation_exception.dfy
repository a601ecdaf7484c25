/**
 * space.gbsdev.utils.json_validator.JsonValidationException: the message it builds from a
 * header and the schema engine's errors. `nl` is the platform line separator that String.format
 * writes for %n ("\n" or "\r\n").
 */
module JsonValidationException {
  import opened Exceptions
  import opened TextLines

  /** The separator Collectors.joining puts between two error blocks. */
  const BlockSeparator := "\n\n"

  /**
   * extractMessage: "Path: <location>", "Variable: <keyword>", "Error: <error>", in that order,
   * each pair separated by `nl`.
   */
  function ExtractMessage(e: ValidationError, nl: string): (r: string)
    ensures |r| == 6 + |e.location| + |nl| + 10 + |e.keyword| + |nl| + 7 + |e.error|
    ensures r[..6 + |e.location|] == "Path: " + e.location
    ensures r[|r| - 7 - |e.error|..] == "Error: " + e.error
  {
    "Path: " + e.location + nl + "Variable: " + e.keyword + nl + "Error: " + e.error
  }

  /**
   * Between the path line and the error line of a block stand, in order: a separator, the
   * "Variable: " line with the keyword, and another separator.
   */
  lemma ExtractMessageMiddle(e: ValidationError, nl: string)
    ensures var r := ExtractMessage(e, nl);
            var variableAt := 6 + |e.location| + |nl|;
            var variableEnd := variableAt + 10 + |e.keyword|;
            && r[variableAt - |nl|..variableAt] == nl
            && r[variableAt..variableEnd] == "Variable: " + e.keyword
            && r[variableEnd..variableEnd + |nl|] == nl
  {
    var path := "Path: " + e.location;
    var variable := "Variable: " + e.keyword;
    var rest := variable + nl + "Error: " + e.error;
    assert ExtractMessage(e, nl) == (path + nl) + rest;
    SliceAfter(path, nl + rest, 0, |nl|);
    SliceAfter(path + nl, rest, 0, |variable|);
    SliceAfter(path + nl, rest, |variable|, |variable| + |nl|);
  }

  /**
   * With "\n" as the line separator and no line break inside the fields, a block reads as
   * exactly three lines: the path, the variable (keyword) and the error.
   */
  lemma ExtractMessageLines(e: ValidationError)
    requires '\n' !in e.location && '\n' !in e.keyword && '\n' !in e.error
    ensures Lines(ExtractMessage(e, "\n")) == ["Path: " + e.location, "Variable: " + e.keyword, "Error: " + e.error]
  {
    var path := "Path: " + e.location;
    var variable := "Variable: " + e.keyword;
    var error := "Error: " + e.error;
    assert '\n' !in path by { assert '\n' !in "Path: "; }
    assert '\n' !in variable by { assert '\n' !in "Variable: "; }
    assert '\n' !in error by { assert '\n' !in "Error: "; }
    assert ExtractMessage(e, "\n") == path + "\n" + (variable + "\n" + error) by {
      assert ExtractMessage(e, "\n") == path + "\n" + variable + "\n" + error;
    }
    LinesOfJoin(path, variable + "\n" + error);
    LinesOfJoin(variable, error);
    LinesOfOneLine(path);
    LinesOfOneLine(variable);
    LinesOfOneLine(error);
  }

  /** Collectors.joining(sep): the parts in order with `sep` between two neighbours. */
  function Join(parts: seq<string>, sep: string): string {
    if |parts| == 0 then ""
    else if |parts| == 1 then parts[0]
    else parts[0] + sep + Join(parts[1..], sep)
  }

  /** Where part `i` starts in Join(parts, sep): every earlier part and the separator after it. */
  function Offset(parts: seq<string>, sep: string, i: nat): nat
    requires i <= |parts|
  {
    if i == 0 then 0 else |parts[0]| + |sep| + Offset(parts[1..], sep, i - 1)
  }

  /** Slicing past a prefix is slicing the rest. */
  lemma SliceAfter(a: string, b: string, lo: nat, hi: nat)
    requires lo <= hi <= |b|
    ensures (a + b)[|a| + lo..|a| + hi] == b[lo..hi]
  {
  }

  /**
   * Join(parts, sep) holds part i, untruncated, at Offset(i); the separator follows every part
   * but the last; and the text ends right after the last part (no trailing separator), so
   * n parts give exactly n - 1 separators.
   */
  lemma {:induction false} JoinAt(parts: seq<string>, sep: string, i: nat)
    requires i < |parts|
    ensures Offset(parts, sep, i) + |parts[i]| <= |Join(parts, sep)|
    ensures Join(parts, sep)[Offset(parts, sep, i)..Offset(parts, sep, i) + |parts[i]|] == parts[i]
    ensures i + 1 < |parts| ==>
              && Offset(parts, sep, i) + |parts[i]| + |sep| <= |Join(parts, sep)|
              && Join(parts, sep)[Offset(parts, sep, i) + |parts[i]|..Offset(parts, sep, i) + |parts[i]| + |sep|] == sep
    ensures i + 1 == |parts| ==> |Join(parts, sep)| == Offset(parts, sep, i) + |parts[i]|
  {
    var j := Join(parts, sep);
    if |parts| > 1 {
      var head := parts[0] + sep;
      var tail := Join(parts[1..], sep);
      assert j == head + tail;
      if i == 0 {
        assert j[..|parts[0]|] == parts[0];
        assert j[|parts[0]|..|parts[0]| + |sep|] == sep;
      } else {
        JoinAt(parts[1..], sep, i - 1);
        var k := Offset(parts[1..], sep, i - 1);
        var n := |parts[i]|;
        assert parts[1..][i - 1] == parts[i];
        assert Offset(parts, sep, i) == |head| + k;
        SliceAfter(head, tail, k, k + n);
        if i + 1 < |parts| {
          SliceAfter(head, tail, k + n, k + n + |sep|);
        }
      }
    }
  }

  /** The blocks of the message: one per error, in the order the engine reported them. */
  function Blocks(errors: seq<ValidationError>, nl: string): (r: seq<string>)
    ensures |r| == |errors|
    ensures forall i :: 0 <= i < |errors| ==> r[i] == ExtractMessage(errors[i], nl)
  {
    if errors == [] then [] else [ExtractMessage(errors[0], nl)] + Blocks(errors[1..], nl)
  }

  /** buildMessage: the header, a line break, then the error blocks joined by a blank line. */
  function BuildMessage(header: string, errors: seq<ValidationError>, nl: string): (r: string)
    ensures |r| >= |header| + 1 && r[..|header| + 1] == header + "\n"
    ensures errors == [] ==> r == header + "\n"
  {
    header + "\n" + Join(Blocks(errors, nl), BlockSeparator)
  }

  /**
   * Every error appears in the message, whole and in input order: block i starts at
   * BlockStart(i), a blank line separates it from block i + 1, which starts right after that,
   * and the message ends with the last block.
   */
  lemma ErrorInMessage(header: string, errors: seq<ValidationError>, nl: string, i: nat)
    requires i < |errors|
    ensures BlockStart(header, errors, nl, i) + |ExtractMessage(errors[i], nl)| <= |BuildMessage(header, errors, nl)|
    ensures BuildMessage(header, errors, nl)[BlockStart(header, errors, nl, i)..BlockStart(header, errors, nl, i) + |ExtractMessage(errors[i], nl)|]
         == ExtractMessage(errors[i], nl)
    ensures i + 1 < |errors| ==>
              var end := BlockStart(header, errors, nl, i) + |ExtractMessage(errors[i], nl)|;
              && end + 2 <= |BuildMessage(header, errors, nl)|
              && BuildMessage(header, errors, nl)[end..end + 2] == BlockSeparator
              && BlockStart(header, errors, nl, i + 1) == end + 2
    ensures i + 1 == |errors| ==>
              |BuildMessage(header, errors, nl)| == BlockStart(header, errors, nl, i) + |ExtractMessage(errors[i], nl)|
  {
    var r := BuildMessage(header, errors, nl);
    var blocks := Blocks(errors, nl);
    var prefix := header + "\n";
    var joined := Join(blocks, BlockSeparator);
    assert r == prefix + joined;
    var block := ExtractMessage(errors[i], nl);
    assert blocks[i] == block;
    JoinAt(blocks, BlockSeparator, i);
    var k := Offset(blocks, BlockSeparator, i);
    var n := |block|;
    SliceAfter(prefix, joined, k, k + n);
    if i + 1 < |errors| {
      SliceAfter(prefix, joined, k + n, k + n + 2);
      OffsetStep(blocks, BlockSeparator, i);
    }
  }

  /** Where the block of error i starts in the message. */
  function BlockStart(header: string, errors: seq<ValidationError>, nl: string, i: nat): nat
    requires i < |errors|
  {
    |header| + 1 + Offset(Blocks(errors, nl), BlockSeparator, i)
  }

  /** Part i + 1 of a join starts right after part i and one separator. */
  lemma {:induction false} OffsetStep(parts: seq<string>, sep: string, i: nat)
    requires i + 1 < |parts|
    ensures Offset(parts, sep, i + 1) == Offset(parts, sep, i) + |parts[i]| + |sep|
  {
    if i > 0 {
      OffsetStep(parts[1..], sep, i - 1);
      assert parts[1..][i - 1] == parts[i];
    }
  }
}
