/** strings.Split of Go's standard library, for a one-character separator. */
module Strings {

  /** The pieces between separators; there is always at least one. */
  function Split(s: string, sep: char): (parts: seq<string>)
    ensures |parts| >= 1
  {
    if s == "" then [""]
    else
      var rest := Split(s[1..], sep);
      if s[0] == sep then [""] + rest else [[s[0]] + rest[0]] + rest[1..]
  }

  function Join(parts: seq<string>, sep: char): string {
    if parts == [] then "" else if |parts| == 1 then parts[0] else parts[0] + [sep] + Join(parts[1..], sep)
  }

  /** Joining the pieces gives the string back, and no piece contains the separator. */
  lemma {:induction false} SplitJoin(s: string, sep: char)
    ensures Join(Split(s, sep), sep) == s
    ensures forall i :: 0 <= i < |Split(s, sep)| ==> sep !in Split(s, sep)[i]
  {
    if s != "" {
      var rest := Split(s[1..], sep);
      SplitJoin(s[1..], sep);
      assert s == [s[0]] + s[1..];
      if s[0] == sep {
        assert ([""] + rest)[1..] == rest;
      } else {
        JoinLonger(s[0], rest, sep);
      }
    }
  }

  /** A character put in front of the first piece comes first in the whole. */
  lemma JoinLonger(c: char, parts: seq<string>, sep: char)
    requires parts != []
    ensures Join([[c] + parts[0]] + parts[1..], sep) == [c] + Join(parts, sep)
  {
  }

  /** What comes before the first separator is the first piece. */
  lemma {:induction false} SplitHead(head: string, rest: string, sep: char)
    requires sep !in head
    ensures Split(head + [sep] + rest, sep) == [head] + Split(rest, sep)
  {
    var s := head + [sep] + rest;
    if head == "" {
      assert s[1..] == rest;
    } else {
      SplitHead(head[1..], rest, sep);
      assert s[1..] == head[1..] + [sep] + rest;
      assert [s[0]] + head[1..] == head;
    }
  }

  /** A text without separators is a beginning of the first piece. */
  lemma {:induction false} FirstPieceExtends(head: string, rest: string, sep: char)
    requires sep !in head
    ensures Split(head + rest, sep)[0] == head + Split(rest, sep)[0]
  {
    if head == "" {
      assert head + rest == rest;
    } else {
      var tail := head[1..];
      FirstPieceExtends(tail, rest, sep);
      assert head + rest == [head[0]] + (tail + rest);
      FirstPieceNext(head[0], tail + rest, sep);
      assert [head[0]] + (tail + Split(rest, sep)[0]) == head + Split(rest, sep)[0];
    }
  }

  lemma FirstPieceNext(c: char, s: string, sep: char)
    requires c != sep
    ensures Split([c] + s, sep)[0] == [c] + Split(s, sep)[0]
  {
    assert ([c] + s)[1..] == s;
  }

  lemma {:induction false} SplitWhole(s: string, sep: char)
    requires sep !in s
    ensures Split(s, sep) == [s]
  {
    if s != "" {
      SplitWhole(s[1..], sep);
      assert [s[0]] + s[1..] == s;
    }
  }

  /** Splitting undoes joining: together with SplitJoin, texts and non-empty lists of pieces correspond one to one. */
  lemma {:induction false} JoinSplit(parts: seq<string>, sep: char)
    requires parts != [] && forall i :: 0 <= i < |parts| ==> sep !in parts[i]
    ensures Split(Join(parts, sep), sep) == parts
  {
    if |parts| == 1 {
      SplitWhole(parts[0], sep);
    } else {
      JoinSplit(parts[1..], sep);
      SplitHead(parts[0], Join(parts[1..], sep), sep);
      assert [parts[0]] + parts[1..] == parts;
    }
  }

  /** A single piece is the string itself: comparing whole annotations and comparing their pieces agree. */
  lemma SplitSingle(s: string, sep: char)
    requires |Split(s, sep)| == 1
    ensures Split(s, sep) == [s]
  {
    SplitJoin(s, sep);
    assert Split(s, sep) == [Split(s, sep)[0]];
  }
}
