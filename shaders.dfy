// shaderReadSource: a shader's source text is read line by line with
// BufferedReader.readLine, and every line is stored with a "\n" appended
// together with its length, ready for glShaderSource.  The stream is modelled
// as the text it decodes to; readLine is modelled by SplitLines.

module Shaders {

  predicate IsTerminator(c: char)
  {
    c == '\n' || c == '\r'
  }

  predicate NoTerminator(s: string)
  {
    forall i :: 0 <= i < |s| ==> !IsTerminator(s[i])
  }

  /** The index of the first line terminator of `text`, or |text| if none. */
  function FirstTerminator(text: string): (k: nat)
    ensures k <= |text|
    ensures NoTerminator(text[..k])
    ensures k < |text| ==> IsTerminator(text[k])
  {
    if |text| == 0 || IsTerminator(text[0]) then 0
    else
      var k := 1 + FirstTerminator(text[1..]);
      assert text[..k] == [text[0]] + text[1..][..k - 1];
      k
  }

  /** The lines successive calls of readLine return before it returns null:
      a line ends at "\n", "\r" or "\r\n", the terminator is not part of it,
      and text after the last terminator is a final line. */
  function SplitLines(text: string): (r: seq<string>)
    ensures forall i :: 0 <= i < |r| ==> NoTerminator(r[i])
    ensures |text| == 0 <==> r == []
    decreases |text|
  {
    if |text| == 0 then []
    else
      var k := FirstTerminator(text);
      if k == |text| then [text]
      else if text[k] == '\r' && k + 1 < |text| && text[k + 1] == '\n' then [text[..k]] + SplitLines(text[k + 2..])
      else [text[..k]] + SplitLines(text[k + 1..])
  }

  /** The text of lines each ended by "\n". */
  function JoinLines(lines: seq<string>): string
  {
    if |lines| == 0 then [] else lines[0] + "\n" + JoinLines(lines[1..])
  }

  lemma FirstTerminatorOfLine(line: string, rest: string)
    requires NoTerminator(line)
    ensures FirstTerminator(line + "\n" + rest) == |line|
    decreases |line|
  {
    if |line| > 0 {
      assert (line + "\n" + rest)[1..] == line[1..] + "\n" + rest;
      FirstTerminatorOfLine(line[1..], rest);
    }
  }

  /** readLine gives back exactly the lines a "\n"-terminated text was made
      of. */
  lemma {:induction false} SplitJoin(lines: seq<string>)
    requires forall i :: 0 <= i < |lines| ==> NoTerminator(lines[i])
    ensures SplitLines(JoinLines(lines)) == lines
  {
    if |lines| > 0 {
      var text := JoinLines(lines);
      var rest := JoinLines(lines[1..]);
      assert text == lines[0] + "\n" + rest;
      FirstTerminatorOfLine(lines[0], rest);
      var k := |lines[0]|;
      assert text[k] == '\n';
      assert text[..k] == lines[0];
      assert text[k + 1..] == rest;
      SplitJoin(lines[1..]);
    }
  }

  /** Every line with its "\n" put back. */
  function Terminated(lines: seq<string>): (r: seq<string>)
    ensures |r| == |lines|
    ensures forall i :: 0 <= i < |r| ==> r[i] == lines[i] + "\n"
  {
    if |lines| == 0 then [] else [lines[0] + "\n"] + Terminated(lines[1..])
  }

  /** The shape the two lists have for glShaderSource: one length per line,
      each the length of its line. */
  predicate Paired(lines: seq<string>, lengths: seq<int>)
  {
    |lines| == |lengths| && forall i :: 0 <= i < |lines| ==> lengths[i] == |lines[i]|
  }

  /** shaderReadSource: every line readLine returns is appended with "\n" to
      `lines`, and its length plus one to `lengths`.  Lists that were paired
      stay paired. */
  method ShaderReadSource(text: string, lines0: seq<string>, lengths0: seq<int>)
    returns (lines: seq<string>, lengths: seq<int>)
    ensures lines == lines0 + Terminated(SplitLines(text))
    ensures |lengths| == |lengths0| + |SplitLines(text)|
    ensures lengths[..|lengths0|] == lengths0
    ensures forall i :: 0 <= i < |SplitLines(text)| ==> lengths[|lengths0| + i] == |SplitLines(text)[i]| + 1
    ensures Paired(lines0, lengths0) ==> Paired(lines, lengths)
  {
    var source := SplitLines(text);
    lines, lengths := lines0, lengths0;
    var i := 0;
    while i < |source|
      invariant 0 <= i <= |source|
      invariant |lines| == |lines0| + i && lines[..|lines0|] == lines0
      invariant forall j :: 0 <= j < i ==> lines[|lines0| + j] == source[j] + "\n"
      invariant |lengths| == |lengths0| + i && lengths[..|lengths0|] == lengths0
      invariant forall j :: 0 <= j < i ==> lengths[|lengths0| + j] == |source[j]| + 1
    {
      var line := source[i];
      lines := lines + [line + "\n"];
      lengths := lengths + [|line| + 1];
      i := i + 1;
    }
    var expected := lines0 + Terminated(source);
    assert |lines| == |expected|;
    assert forall j :: 0 <= j < |lines| ==> lines[j] == expected[j] by {
      forall j | 0 <= j < |lines|
        ensures lines[j] == expected[j]
      {
        if j < |lines0| {
          assert lines[j] == lines[..|lines0|][j];
        }
      }
    }
  }

  /** The text the shader compiler receives: the stored lines, concatenated. */
  function Concat(parts: seq<string>): string
  {
    if |parts| == 0 then [] else parts[0] + Concat(parts[1..])
  }

  lemma {:induction false} ConcatTerminated(lines: seq<string>)
    ensures Concat(Terminated(lines)) == JoinLines(lines)
  {
    if |lines| > 0 {
      assert Terminated(lines)[1..] == Terminated(lines[1..]);
      ConcatTerminated(lines[1..]);
    }
  }

  /** A text made of "\n"-terminated lines reaches the shader compiler
      unchanged. */
  lemma ReadSourceOfJoinedLines(lines: seq<string>)
    requires forall i :: 0 <= i < |lines| ==> NoTerminator(lines[i])
    ensures Concat(Terminated(SplitLines(JoinLines(lines)))) == JoinLines(lines)
  {
    SplitJoin(lines);
    ConcatTerminated(lines);
  }
}
