/** Text helpers shared by the sinks: line-terminated sequences, separators
    and decimal rendering of counters. */
module Text {

  lemma ConcatAssoc(a: string, b: string, c: string)
    ensures (a + b) + c == a + (b + c)
  {
  }

  /** Every part followed by `t`: the shape of a file written line by line. */
  function Terminated(parts: seq<string>, t: string): (r: string)
    ensures |parts| == 0 ==> r == ""
  {
    if |parts| == 0 then "" else parts[0] + t + Terminated(parts[1..], t)
  }

  /** The parts with `sep` between neighbours and nowhere else. */
  function Join(parts: seq<string>, sep: string): string
  {
    if |parts| == 0 then ""
    else if |parts| == 1 then parts[0]
    else parts[0] + sep + Join(parts[1..], sep)
  }

  /** Text of a file whose lines are `lines`, each ended by a newline. */
  function Lines(lines: seq<string>): string
  {
    Terminated(lines, "\n")
  }

  lemma {:induction false} TerminatedAppend(a: seq<string>, b: seq<string>, t: string)
    ensures Terminated(a + b, t) == Terminated(a, t) + Terminated(b, t)
  {
    if |a| == 0 {
      assert a + b == b;
    } else {
      assert (a + b)[1..] == a[1..] + b;
      TerminatedAppend(a[1..], b, t);
    }
  }

  lemma {:induction false} TerminatedSnoc(a: seq<string>, x: string, t: string)
    ensures Terminated(a + [x], t) == Terminated(a, t) + x + t
  {
    TerminatedAppend(a, [x], t);
    assert Terminated([x], t) == x + t + Terminated([], t);
  }

  /** A non-empty terminated text ends with the terminator's last character. */
  lemma {:induction false} TerminatedLast(parts: seq<string>, t: string)
    requires |parts| > 0 && |t| > 0
    ensures |Terminated(parts, t)| > 0 && Terminated(parts, t)[|Terminated(parts, t)| - 1] == t[|t| - 1]
  {
    var head := parts[0] + t;
    var rest := Terminated(parts[1..], t);
    assert Terminated(parts, t) == head + rest;
    if |parts| > 1 {
      TerminatedLast(parts[1..], t);
      assert (head + rest)[|head + rest| - 1] == rest[|rest| - 1];
    } else {
      assert head + rest == head;
    }
  }

  /** A joined text followed by one more separator is the terminated text:
      the file state reached when the closing token is replaced by a separator. */
  lemma {:induction false} JoinThenSeparator(parts: seq<string>, sep: string)
    requires |parts| > 0
    ensures Join(parts, sep) + sep == Terminated(parts, sep)
  {
    if |parts| > 1 {
      JoinThenSeparator(parts[1..], sep);
    }
  }

  lemma {:induction false} JoinSnoc(parts: seq<string>, x: string, sep: string)
    requires |parts| > 0
    ensures Join(parts + [x], sep) == Terminated(parts, sep) + x
  {
    if |parts| == 1 {
      assert (parts + [x])[1..] == [x];
    } else {
      assert (parts + [x])[1..] == parts[1..] + [x];
      JoinSnoc(parts[1..], x, sep);
    }
  }

  /** The decimal digit for d. */
  function DigitChar(d: nat): (c: char)
    requires d < 10
    ensures '0' <= c <= '9'
  {
    ('0' as int + d) as char
  }
}
