/** Reading a built message line by line, shared by the exception message builders. */
module TextLines {
  /** A string cut at every '\n', as String.split("\n", -1) does. */
  function Lines(s: string): (r: seq<string>)
    ensures |r| >= 1
  {
    if s == [] then [""]
    else if s[0] == '\n' then [""] + Lines(s[1..])
    else var rest := Lines(s[1..]); [[s[0]] + rest[0]] + rest[1..]
  }

  /** Cutting two strings joined by a line break gives the lines of each, in order. */
  lemma {:induction false} LinesOfJoin(x: string, y: string)
    ensures Lines(x + "\n" + y) == Lines(x) + Lines(y)
  {
    if x == [] {
      assert x + "\n" + y == "\n" + y;
      assert ("\n" + y)[1..] == y;
    } else {
      assert (x + "\n" + y)[0] == x[0];
      assert (x + "\n" + y)[1..] == x[1..] + "\n" + y;
      LinesOfJoin(x[1..], y);
    }
  }

  /** A string without a line break is one line. */
  lemma {:induction false} LinesOfOneLine(s: string)
    requires '\n' !in s
    ensures Lines(s) == [s]
  {
    if s != [] {
      assert '\n' !in s[1..];
      LinesOfOneLine(s[1..]);
      assert [s[0]] + s[1..] == s;
    }
  }
}
