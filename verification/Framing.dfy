/**
 Newline framing of append-only JSON files. Section 7 of RFC 8259 requires control characters in
 strings to be escaped, so an encoded record holds no raw newline or carriage return; the text
 syntax itself is an injective codec.
 */
module Framing {
  import opened Common

  type Byte = x: int | 0 <= x < 256
  type Bytes = seq<Byte>

  const NEWLINE: Byte := 10
  const RETURN: Byte := 13

  datatype Codec<!T> = Codec(encode: T -> Bytes, decode: Bytes -> Option<T>)

  ghost predicate Faithful<T(!new)>(codec: Codec<T>) {
    forall x: T ::
      var line := codec.encode(x);
      line != [] && NEWLINE !in line && RETURN !in line && codec.decode(line) == Some(x)
  }

  /** The newline-terminated lines of a file, and what follows the last newline. */
  datatype Split = Split(lines: seq<Bytes>, tail: Bytes)

  function Feed(s: Split, b: Byte): Split {
    if b == NEWLINE then Split(s.lines + [s.tail], []) else Split(s.lines, s.tail + [b])
  }

  function SplitFrom(s: Split, file: Bytes): Split
    decreases |file|
  {
    if file == [] then s else SplitFrom(Feed(s, file[0]), file[1..])
  }

  function SplitLines(file: Bytes): Split {
    SplitFrom(Split([], []), file)
  }

  lemma {:induction false} SplitConcat(s: Split, a: Bytes, b: Bytes)
    ensures SplitFrom(s, a + b) == SplitFrom(SplitFrom(s, a), b)
    decreases |a|
  {
    if a == [] {
      assert a + b == b;
    } else {
      assert (a + b)[1..] == a[1..] + b;
      SplitConcat(Feed(s, a[0]), a[1..], b);
    }
  }

  lemma {:induction false} SplitWithoutNewline(s: Split, line: Bytes)
    requires NEWLINE !in line
    ensures SplitFrom(s, line) == Split(s.lines, s.tail + line)
    decreases |line|
  {
    if line == [] {
      assert s.tail + line == s.tail;
    } else {
      assert (s.tail + [line[0]]) + line[1..] == s.tail + line;
      SplitWithoutNewline(Feed(s, line[0]), line[1..]);
    }
  }

  /** A file is exactly its lines, each with its newline, followed by its tail. */
  function Join(lines: seq<Bytes>): Bytes {
    if lines == [] then [] else Join(lines[..|lines| - 1]) + lines[|lines| - 1] + [NEWLINE]
  }

  lemma {:induction false} SplitJoins(s: Split, file: Bytes)
    ensures var t := SplitFrom(s, file);
            Join(t.lines) + t.tail == Join(s.lines) + s.tail + file
    ensures s.lines <= SplitFrom(s, file).lines
    decreases |file|
  {
    if file == [] {
      assert Join(s.lines) + s.tail + file == Join(s.lines) + s.tail;
    } else {
      var t := Feed(s, file[0]);
      SplitJoins(t, file[1..]);
      assert (s.lines + [s.tail])[..|s.lines|] == s.lines;
      assert Join(t.lines) + t.tail == Join(s.lines) + s.tail + [file[0]];
      assert [file[0]] + file[1..] == file;
      assert Join(s.lines) + s.tail + [file[0]] + file[1..] == Join(s.lines) + s.tail + file;
    }
  }

  lemma {:induction false} LinesHaveNoNewline(s: Split, file: Bytes)
    requires NEWLINE !in s.tail && forall l :: l in s.lines ==> NEWLINE !in l
    ensures var t := SplitFrom(s, file);
            NEWLINE !in t.tail && forall l :: l in t.lines ==> NEWLINE !in l
    decreases |file|
  {
    if file != [] {
      LinesHaveNoNewline(Feed(s, file[0]), file[1..]);
    }
  }
}
