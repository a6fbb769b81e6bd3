/**
 * The one string routine the dispatcher borrows from Go's standard library:
 * strings.Join, which the ingredients response uses (main.go:43) and which the
 * concatenation of recipe names (main.go:56-59) is a special case of.
 */
module Text {

  /** Sum of the lengths of the parts. */
  function TotalLength(parts: seq<string>): nat
  {
    if |parts| == 0 then 0 else |parts[0]| + TotalLength(parts[1..])
  }

  /** Number of separators strings.Join places: one between each pair of neighbours. */
  function SeparatorCount(parts: seq<string>): nat
  {
    if |parts| == 0 then 0 else |parts| - 1
  }

  /**
   * strings.Join(parts, sep): the parts in order, with sep between consecutive
   * parts, no leading or trailing separator; empty for no parts.
   */
  function Join(parts: seq<string>, sep: string): (r: string)
    ensures |r| == TotalLength(parts) + SeparatorCount(parts) * |sep|
    ensures |parts| == 0 ==> r == ""
  {
    if |parts| == 0 then ""
    else if |parts| == 1 then parts[0]
    else parts[0] + sep + Join(parts[1..], sep)
  }

  /** Where parts[i] starts inside Join(parts, sep): every earlier part and its separator. */
  function Offset(parts: seq<string>, sep: string, i: nat): nat
    requires i <= |parts|
  {
    if i == 0 then 0 else |parts[0]| + |sep| + Offset(parts[1..], sep, i - 1)
  }

  /**
   * Join written the way Go's builder produces it: joining one more part
   * appends a separator and then that part.
   */
  lemma {:induction false} JoinSnoc(parts: seq<string>, x: string, sep: string)
    requires |parts| >= 1
    ensures Join(parts + [x], sep) == Join(parts, sep) + sep + x
  {
    if |parts| == 1 {
      assert parts + [x] == [parts[0], x];
      assert [parts[0], x][1..] == [x];
    } else {
      assert (parts + [x])[1..] == parts[1..] + [x];
      JoinSnoc(parts[1..], x, sep);
    }
  }

  /** Slicing past a known prefix is slicing the rest. */
  lemma SliceAfterPrefix(a: string, b: string, x: nat, y: nat)
    requires x <= y <= |b|
    ensures (a + b)[|a| + x..|a| + y] == b[x..y]
  {
  }

  /** Join keeps every part, in order, at its offset. */
  lemma {:induction false} JoinPartAt(parts: seq<string>, sep: string, i: nat)
    requires i < |parts|
    ensures Offset(parts, sep, i) + |parts[i]| <= |Join(parts, sep)|
    ensures Join(parts, sep)[Offset(parts, sep, i)..Offset(parts, sep, i) + |parts[i]|] == parts[i]
  {
    if i == 0 {
      if |parts| > 1 {
        assert Join(parts, sep) == parts[0] + (sep + Join(parts[1..], sep));
      }
    } else {
      var rest := parts[1..];
      JoinPartAt(rest, sep, i - 1);
      var o := Offset(rest, sep, i - 1);
      assert Join(parts, sep) == (parts[0] + sep) + Join(rest, sep);
      SliceAfterPrefix(parts[0] + sep, Join(rest, sep), o, o + |rest[i - 1]|);
    }
  }

  /**
   * Join puts exactly sep right after every part but the last, and the next
   * part starts right after it: with JoinPartAt and OffsetEnd this determines
   * the joined text completely.
   */
  lemma {:induction false} JoinSeparatorAt(parts: seq<string>, sep: string, i: nat)
    requires i + 1 < |parts|
    ensures Offset(parts, sep, i + 1) == Offset(parts, sep, i) + |parts[i]| + |sep|
    ensures Offset(parts, sep, i + 1) <= |Join(parts, sep)|
    ensures Join(parts, sep)[Offset(parts, sep, i) + |parts[i]|..Offset(parts, sep, i + 1)] == sep
  {
    var rest := parts[1..];
    if i == 0 {
      assert Offset(rest, sep, 0) == 0;
      assert Join(parts, sep) == (parts[0] + sep) + Join(rest, sep);
      assert (parts[0] + sep)[|parts[0]|..] == sep;
    } else {
      JoinSeparatorAt(rest, sep, i - 1);
      var o := Offset(rest, sep, i - 1) + |rest[i - 1]|;
      assert Join(parts, sep) == (parts[0] + sep) + Join(rest, sep);
      SliceAfterPrefix(parts[0] + sep, Join(rest, sep), o, o + |sep|);
    }
  }

  /** The last part ends where the joined text ends. */
  lemma {:induction false} OffsetEnd(parts: seq<string>, sep: string)
    requires |parts| >= 1
    ensures Offset(parts, sep, |parts| - 1) + |parts[|parts| - 1]| == |Join(parts, sep)|
  {
    if |parts| > 1 {
      var rest := parts[1..];
      OffsetEnd(rest, sep);
      assert parts[|parts| - 1] == rest[|rest| - 1];
      assert Offset(parts, sep, |parts| - 1) == |parts[0]| + |sep| + Offset(rest, sep, |rest| - 1);
      assert Join(parts, sep) == parts[0] + sep + Join(rest, sep);
    }
  }

  /** Join unfolded for four parts. */
  lemma JoinFour(a: string, b: string, c: string, d: string, sep: string)
    ensures Join([a, b, c, d], sep) == a + sep + b + sep + c + sep + d
  {
    assert [a, b, c, d][1..] == [b, c, d];
    assert [b, c, d][1..] == [c, d];
    assert [c, d][1..] == [d];
    assert Join([c, d], sep) == c + sep + d;
    assert Join([b, c, d], sep) == b + sep + (c + sep + d);
  }
}
