/**
 The text of the `queue` command: a header line followed by one numbered line
 per pending track, counted from 1 in play order, or a fixed notice when
 nothing is pending.
 */
module Listing {
  import opened Text
  import opened Sessions

  /** The notice sent for an empty queue. */
  const EmptyNotice := "Queue is empty."

  /** The header line that opens a non-empty listing. */
  const Header := "**Queue:**"

  /** The line for the track at position `n` (counted from 1). */
  function NumberedLine(n: nat, t: Track): (line: string)
  {
    NatToString(n) + ". " + t.title
  }

  /** One numbered line per pending track, in queue order. */
  function NumberedLines(q: seq<Track>): (lines: seq<string>)
  {
    seq(|q|, i requires 0 <= i < |q| => NumberedLine(i + 1, q[i]))
  }

  /** The message the `queue` command sends for pending list `q`. */
  function QueueMessage(q: seq<Track>): (msg: string)
    ensures msg == EmptyNotice <==> q == []
  {
    if q == [] then EmptyNotice
    else
      var listing := Header + "\n" + JoinLines(NumberedLines(q));
      assert listing[0] != EmptyNotice[0];
      listing
  }

  /** A title is printable on one line when it holds no newline. */
  predicate SingleLineTitles(q: seq<Track>)
  {
    forall i :: 0 <= i < |q| ==> '\n' !in q[i].title
  }

  /** A numbered line holds no newline when the title holds none. */
  lemma NumberedLineIsOneLine(n: nat, t: Track)
    requires '\n' !in t.title
    ensures '\n' !in NumberedLine(n, t)
  {
  }

  /**
   A non-empty listing reads, line by line, as the header followed by exactly
   one line per pending track: line `i + 1` is the decimal number `i + 1`, a
   dot, a space and the title of the track at position `i`.
   */
  lemma {:induction false} QueueMessageLines(q: seq<Track>)
    requires q != []
    requires SingleLineTitles(q)
    ensures |SplitLines(QueueMessage(q))| == |q| + 1
    ensures SplitLines(QueueMessage(q))[0] == Header
    ensures forall i :: 0 <= i < |q| ==>
      SplitLines(QueueMessage(q))[i + 1] == NatToString(i + 1) + ". " + q[i].title
  {
    var lines := NumberedLines(q);
    forall k | 0 <= k < |lines| ensures '\n' !in lines[k] {
      NumberedLineIsOneLine(k + 1, q[k]);
    }
    SplitLeadingLine(Header, JoinLines(lines));
    SplitJoin(lines);
  }
}
