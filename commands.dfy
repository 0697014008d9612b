/** Command classification and search-query extraction: the two pure
    string computations of the message handler in src/index.ts. */
module Commands {

  /** What the message handler does with an inbound chat message. */
  datatype Command = Ignored | Play | Skip | Stop | Unknown

  /** The handler's dispatch: bot authors and texts without the configured
      prefix are ignored; otherwise `startsWith` tests are tried in the
      order play, skip, stop, and anything else is an unknown command.
      JavaScript's `s.startsWith(p)` is the sequence prefix test `p <= s`. */
  function Classify(prefix: string, fromBot: bool, content: string): (c: Command)
    ensures c == Ignored <==> fromBot || !(prefix <= content)
    ensures c == Play <==> !fromBot && prefix + "play" <= content
    ensures c == Skip <==> !fromBot && prefix + "skip" <= content && !(prefix + "play" <= content)
    ensures c == Stop <==> !fromBot && prefix + "stop" <= content
                           && !(prefix + "play" <= content) && !(prefix + "skip" <= content)
  {
    if fromBot then Ignored
    else if !(prefix <= content) then Ignored
    else if prefix + "play" <= content then Play
    else if prefix + "skip" <= content then Skip
    else if prefix + "stop" <= content then Stop
    else Unknown
  }

  /** The play test comes first, so a prefixed text that merely begins with
      `play` is a play command whatever follows it (`!playskip` included). */
  lemma PlayShadowsLaterTests(prefix: string, rest: string)
    ensures Classify(prefix, false, prefix + "play" + rest) == Play
  {
  }

  /** A recognised command is decided by a prefix of the text alone:
      appending anything to the message does not change it. */
  lemma ClassifyStableUnderExtension(prefix: string, fromBot: bool, content: string, more: string)
    requires Classify(prefix, fromBot, content) in {Play, Skip, Stop}
    ensures Classify(prefix, fromBot, content + more) == Classify(prefix, fromBot, content)
  {
  }

  /** JavaScript's `s.split(sep)` for a one-character separator: the pieces
      between separators, empty pieces kept, and always at least one piece. */
  function Split(s: string, sep: char): (parts: seq<string>)
    ensures |parts| >= 1
    ensures forall i :: 0 <= i < |parts| ==> sep !in parts[i]
    decreases |s|
  {
    if s == [] then [[]]
    else
      var rest := Split(s[1..], sep);
      if s[0] == sep then [[]] + rest
      else [[s[0]] + rest[0]] + rest[1..]
  }

  /** JavaScript's `parts.join(sep)` (and `Array.prototype.toString`, which
      joins with `,`): the empty array gives the empty string. */
  function Join(parts: seq<string>, sep: char): (r: string)
    ensures parts != [] ==> parts[0] <= r
  {
    if |parts| == 0 then []
    else if |parts| == 1 then parts[0]
    else parts[0] + [sep] + Join(parts[1..], sep)
  }

  /** `replace(/,/g, ' ')`: every comma becomes a space. */
  function ReplaceCommas(s: string): (r: string)
    ensures |r| == |s| && ',' !in r
    ensures forall i :: 0 <= i < |s| && s[i] == ',' ==> r[i] == ' '
    ensures forall i :: 0 <= i < |s| && s[i] != ',' ==> r[i] == s[i]
  {
    if s == [] then []
    else [if s[0] == ',' then ' ' else s[0]] + ReplaceCommas(s[1..])
  }

  /** ReplaceCommas applied to every piece. */
  function ReplaceEach(parts: seq<string>): (r: seq<string>)
    ensures |r| == |parts|
  {
    if parts == [] then [] else [ReplaceCommas(parts[0])] + ReplaceEach(parts[1..])
  }

  /** The text handed to the video search for a play command: the message
      split on spaces, its first token dropped, the rest joined by
      `toString()` (with commas), and every comma turned back into a space. */
  function Query(content: string): (q: string)
    ensures ',' !in q
  {
    ReplaceCommas(Join(Split(content, ' ')[1..], ','))
  }

  lemma {:induction false} ReplaceCommasAppend(a: string, b: string)
    ensures ReplaceCommas(a + b) == ReplaceCommas(a) + ReplaceCommas(b)
  {
    if a == [] {
      assert a + b == b;
    } else {
      assert (a + b)[0] == a[0];
      assert (a + b)[1..] == a[1..] + b;
      ReplaceCommasAppend(a[1..], b);
    }
  }

  /** Split and Join are inverse: joining the pieces with the separator
      gives back the original text. */
  lemma {:induction false} JoinSplit(s: string, sep: char)
    ensures Join(Split(s, sep), sep) == s
  {
    if s != [] {
      var rest := Split(s[1..], sep);
      JoinSplit(s[1..], sep);
      if s[0] == sep {
        assert Join([[]] + rest, sep) == [] + [sep] + Join(rest, sep);
      } else if |rest| == 1 {
        assert Split(s, sep) == [[s[0]] + rest[0]];
      } else {
        var parts := Split(s, sep);
        assert parts[1..] == rest[1..];
        assert Join(rest, sep) == rest[0] + [sep] + Join(rest[1..], sep);
      }
    }
  }

  /** Splitting at the first separator: the piece before it, then the pieces
      of everything after it. */
  lemma {:induction false} SplitAtFirst(head: string, rest: string, sep: char)
    requires sep !in head
    ensures Split(head + [sep] + rest, sep) == [head] + Split(rest, sep)
    decreases |head|
  {
    var s := head + [sep] + rest;
    if head == [] {
      assert s[1..] == rest;
    } else {
      assert s[1..] == head[1..] + [sep] + rest;
      SplitAtFirst(head[1..], rest, sep);
      assert [head[0]] + head[1..] == head;
    }
  }

  /** A text without the separator is a single piece. */
  lemma {:induction false} SplitWithoutSeparator(s: string, sep: char)
    requires sep !in s
    ensures Split(s, sep) == [s]
  {
    if s != [] {
      SplitWithoutSeparator(s[1..], sep);
      assert [s[0]] + s[1..] == s;
    }
  }

  /** The other round trip: pieces free of the separator, joined with it,
      split back into exactly those pieces. */
  lemma {:induction false} SplitJoin(parts: seq<string>, sep: char)
    requires parts != []
    requires forall i :: 0 <= i < |parts| ==> sep !in parts[i]
    ensures Split(Join(parts, sep), sep) == parts
  {
    if |parts| == 1 {
      SplitWithoutSeparator(parts[0], sep);
    } else {
      SplitJoin(parts[1..], sep);
      SplitAtFirst(parts[0], Join(parts[1..], sep), sep);
      assert [parts[0]] + parts[1..] == parts;
    }
  }

  /** Joining with a comma or a space and then replacing commas is the same
      as replacing commas in every piece and joining with single spaces. */
  lemma {:induction false} ReplaceCommasJoin(parts: seq<string>, sep: char)
    requires sep == ',' || sep == ' '
    ensures ReplaceCommas(Join(parts, sep)) == Join(ReplaceEach(parts), ' ')
  {
    if |parts| >= 2 {
      ReplaceCommasJoin(parts[1..], sep);
      ReplaceCommasAppend(parts[0] + [sep], Join(parts[1..], sep));
      ReplaceCommasAppend(parts[0], [sep]);
      assert ReplaceEach(parts)[1..] == ReplaceEach(parts[1..]);
    }
  }

  /** The search query is the tokens after the first, separated by single
      spaces, with every comma inside them turned into a space. */
  lemma QueryIsLaterTokens(content: string)
    ensures Query(content) == Join(ReplaceEach(Split(content, ' ')[1..]), ' ')
  {
    ReplaceCommasJoin(Split(content, ' ')[1..], ',');
  }

  /** Equivalently: the query is everything after the first space of the
      message, commas turned into spaces; with no space it is empty. */
  lemma QueryIsRestOfLine(head: string, rest: string)
    requires ' ' !in head
    ensures Query(head) == ""
    ensures Query(head + " " + rest) == ReplaceCommas(rest)
  {
    SplitWithoutSeparator(head, ' ');
    SplitAtFirst(head, rest, ' ');
    assert Split(head + " " + rest, ' ')[1..] == Split(rest, ' ');
    ReplaceCommasJoin(Split(rest, ' '), ',');
    ReplaceCommasJoin(Split(rest, ' '), ' ');
    JoinSplit(rest, ' ');
  }
}
