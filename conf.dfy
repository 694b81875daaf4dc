/**
 * The configuration reader of src/conf.c: key = value lines, '#' comments,
 * blank lines, and lines continued by a backslash before their newline.
 *
 * The file is given as the sequence of lines fgets returns, each with its
 * newline if it has one.  Scan is what the reading loop of conf_read_file
 * computes; ConfReadFile is that loop over a Config whose keys and values
 * grow by one entry per accepted logical line.
 */
module Conf {
  import opened Common
  import opened Text

  /** A line that is empty once its leading spaces are skipped, or that starts with '#' there. */
  predicate Skipped(line: string)
  {
    var i := SkipSpaces(line, 0);
    i == |line| || line[i] == '#'
  }

  /** The line after its leading spaces. */
  function Stripped(line: string): string
  {
    line[SkipSpaces(line, 0)..]
  }

  /**
   * The character before the last one is a backslash; for a line read with
   * its newline, that is a backslash just before the newline.
   */
  predicate Continues(l: string)
  {
    |l| > 1 && l[|l| - 2] == '\\'
  }

  /** What a non-skipped line adds to the logical line: the backslash becomes a space. */
  function Piece(l: string): (r: string)
    ensures |r| == |l|
  {
    if Continues(l) then l[|l| - 2 := ' '] else l
  }

  /** strchr(s, c): the first index of c in s, or |s|. */
  function IndexOf(s: string, c: char): (e: nat)
    ensures e <= |s|
    ensures e < |s| ==> s[e] == c
    ensures forall k :: 0 <= k < e ==> s[k] != c
  {
    if s == [] then 0
    else if s[0] == c then 0
    else 1 + IndexOf(s[1..], c)
  }

  /** A logical line split at its first '=': the trimmed key and the trimmed rest; nothing without '='. */
  function SplitEntry(logical: string): (r: Option<(string, string)>)
    ensures r.None? <==> '=' !in logical
  {
    var e := IndexOf(logical, '=');
    if e == |logical| then None
    else Some((Trim(logical[..e]), Trim(logical[e + 1..])))
  }

  /**
   * What one line read by fgets does: the entry it completes, if any, and
   * the logical line left pending for the lines after it.
   */
  function ReadStep(line: string, pending: string): (r: (seq<(string, string)>, string))
    ensures |r.0| <= 1
    ensures Skipped(line) ==> r == ([], pending)
    ensures !Skipped(line) && Continues(Stripped(line)) ==> r == ([], pending + Piece(Stripped(line)))
    ensures !Skipped(line) && !Continues(Stripped(line)) ==>
      r.1 == [] && (r.0 == [] <==> '=' !in pending + Stripped(line))
  {
    if Skipped(line) then ([], pending)
    else
      var l := Stripped(line);
      var logical := pending + Piece(l);
      if Continues(l) then ([], logical)
      else
        (match SplitEntry(logical)
         case None => []
         case Some(kv) => [kv],
         [])
  }

  /**
   * The entries the reading loop appends for lines, given the logical line
   * pending from earlier continued lines.  A continuation still pending at
   * the end of the file adds nothing.
   */
  function Scan(lines: seq<string>, pending: string): (r: seq<(string, string)>)
    ensures |r| <= |lines|
    decreases |lines|
  {
    if lines == [] then []
    else
      var step := ReadStep(lines[0], pending);
      step.0 + Scan(lines[1..], step.1)
  }

  /** The logical line still pending after lines: what a trailing run of continued lines has built. */
  function Carry(lines: seq<string>, pending: string): string
    decreases |lines|
  {
    if lines == [] then pending else Carry(lines[1..], ReadStep(lines[0], pending).1)
  }

  /** The entries of a whole file, in file order. */
  function Entries(lines: seq<string>): (r: seq<(string, string)>)
    ensures |r| <= |lines|
  {
    Scan(lines, [])
  }

  /** The Config struct: parallel key and value arrays of count entries. */
  class Config {
    var keys: seq<string>
    var values: seq<string>
    var count: nat

    ghost predicate Valid()
      reads this
    {
      |keys| == count && |values| == count
    }

    constructor ()
      ensures Valid() && keys == [] && values == []
    {
      keys, values, count := [], [], 0;
    }

    /** The entry table as (key, value) pairs. */
    ghost function Pairs(): (r: seq<(string, string)>)
      reads this
      requires Valid()
      ensures |r| == count
      ensures forall i :: 0 <= i < count ==> r[i] == (keys[i], values[i])
    {
      seq(count, i requires 0 <= i < |keys| && i < |values| reads this => (keys[i], values[i]))
    }

    /** Appends one entry, as conf_read_file does after growing both arrays. */
    method Append(key: string, value: string)
      requires Valid()
      modifies this
      ensures Valid() && Pairs() == old(Pairs()) + [(key, value)]
    {
      keys, values, count := keys + [key], values + [value], count + 1;
    }

    /**
     * conf_get: the value of the first entry whose key equals key exactly,
     * or None when no key does.
     */
    method ConfGet(key: string) returns (r: Option<string>)
      requires Valid()
      ensures r.None? <==> key !in keys
      ensures r.Some? ==> exists i :: 0 <= i < count && keys[i] == key && r.value == values[i]
                                      && forall j :: 0 <= j < i ==> keys[j] != key
    {
      var i := 0;
      while i < count
        invariant i <= count
        invariant forall j :: 0 <= j < i ==> keys[j] != key
      {
        if keys[i] == key {
          return Some(values[i]);
        }
        i := i + 1;
      }
      return None;
    }
  }

  /**
   * The reading loop of conf_read_file over the lines fgets returns: skip
   * blank and comment lines, glue continued lines, and append the split of
   * every finished logical line that holds an '='.
   */
  method ConfReadFile(lines: seq<string>) returns (config: Config)
    ensures fresh(config) && config.Valid()
    ensures config.Pairs() == Entries(lines)
  {
    config := new Config();
    var current: string := [];
    var n := 0;
    while n < |lines|
      invariant n <= |lines| && config.Valid()
      invariant config.Pairs() + Scan(lines[n..], current) == Entries(lines)
    {
      ghost var before := config.Pairs();
      ghost var step := ReadStep(lines[n], current);
      assert lines[n..][0] == lines[n] && lines[n..][1..] == lines[n + 1..];
      assert Scan(lines[n..], current) == step.0 + Scan(lines[n + 1..], step.1);
      current := ReadLine(config, lines[n], current);
      Associative(before, step.0, Scan(lines[n + 1..], step.1));
      n := n + 1;
    }
  }

  /**
   * The body of the reading loop for one line: skip it, glue it to the
   * pending logical line, or finish that line and append its entry.
   */
  method ReadLine(config: Config, line: string, current: string) returns (next: string)
    requires config.Valid()
    modifies config
    ensures config.Valid()
    ensures config.Pairs() == old(config.Pairs()) + ReadStep(line, current).0
    ensures next == ReadStep(line, current).1
  {
    var i := 0;
    while i < |line| && IsSpace(line[i])
      invariant i <= |line| && SkipSpaces(line, 0) == SkipSpaces(line, i)
    {
      i := i + 1;
    }
    if i == |line| || line[i] == '#' {
      return current;
    }
    var l := line[i..];
    var multiLines := false;
    if |l| > 1 && l[|l| - 2] == '\\' {
      l := l[|l| - 2 := ' '];
      multiLines := true;
    }
    next := current + l;
    if multiLines {
      return;
    }
    var e := IndexOf(next, '=');
    if e < |next| {
      var key := TrimWhitespace(next[..e]);
      var value := TrimWhitespace(next[e + 1..]);
      config.Append(key, value);
    } else {
      assert old(config.Pairs()) + [] == old(config.Pairs());
    }
    next := [];
  }

  // ---------------------------------------------------------------------
  // Properties of the reader
  // ---------------------------------------------------------------------

  /** Blank and comment lines change nothing, not even a pending continuation. */
  lemma SkippedLinesAddNothing(line: string, rest: seq<string>, pending: string)
    requires Skipped(line)
    ensures Scan([line] + rest, pending) == Scan(rest, pending)
  {
    assert ([line] + rest)[1..] == rest;
    assert [] + Scan(rest, pending) == Scan(rest, pending);
  }

  /**
   * A line ending in a backslash and a newline is glued, with the backslash
   * turned into a space and without its leading spaces, to the lines after it.
   */
  lemma ContinuedLinesAreJoined(line: string, rest: seq<string>, pending: string)
    requires !Skipped(line)
    requires |line| >= 2 && line[|line| - 2] == '\\' && line[|line| - 1] == '\n'
    ensures var l := Stripped(line);
      Scan([line] + rest, pending) == Scan(rest, pending + l[..|l| - 2] + " \n")
  {
    assert ([line] + rest)[1..] == rest;
    assert SkipSpaces(line, 0) <= |line| - 2;
    var l := Stripped(line);
    assert l[|l| - 2] == '\\' && l[|l| - 1] == '\n';
    assert Piece(l) == l[..|l| - 2] + " \n";
    assert pending + Piece(l) == pending + l[..|l| - 2] + " \n";
    assert [] + Scan(rest, pending + Piece(l)) == Scan(rest, pending + Piece(l));
  }

  /**
   * A lone key = value line, of which the value may hold more '=',
   * is one entry: the trimmed text before the first '=' and the trimmed text after it.
   */
  lemma OneLineOneEntry(line: string, e: nat)
    requires !Skipped(line) && !Continues(Stripped(line))
    requires e < |Stripped(line)| && Stripped(line)[e] == '='
    requires '=' !in Stripped(line)[..e]
    ensures var l := Stripped(line);
      Entries([line]) == [(Trim(l[..e]), Trim(l[e + 1..]))]
  {
    var l := Stripped(line);
    assert IndexOf(l, '=') == e;
    assert SplitEntry(l) == Some((Trim(l[..e]), Trim(l[e + 1..])));
    assert [] + Piece(l) == l;
    assert [line][1..] == [];
    assert ReadStep(line, []) == ([(Trim(l[..e]), Trim(l[e + 1..]))], []);
    assert Scan([line], []) == [(Trim(l[..e]), Trim(l[e + 1..]))] + Scan([], []);
  }

  /** Entries of a file without any '=' are none at all. */
  lemma {:induction false} NoEqualsNoEntries(lines: seq<string>, pending: string)
    requires '=' !in pending
    requires forall i :: 0 <= i < |lines| ==> '=' !in lines[i]
    ensures Scan(lines, pending) == []
    decreases |lines|
  {
    if lines != [] {
      var rest := lines[1..];
      assert forall i :: 0 <= i < |rest| ==> '=' !in rest[i] by {
        forall i | 0 <= i < |rest| ensures '=' !in rest[i] {
          assert rest[i] == lines[i + 1];
        }
      }
      var step := ReadStep(lines[0], pending);
      assert step.0 == [] && '=' !in step.1 by {
        if !Skipped(lines[0]) {
          assert '=' !in pending + Piece(Stripped(lines[0]));
        }
      }
      NoEqualsNoEntries(rest, step.1);
    }
  }

  /**
   * Reading two pieces of a file one after the other gives the entries of
   * the first followed by those of the second, which starts with whatever
   * logical line the first left pending.
   */
  lemma {:induction false} ScanConcat(a: seq<string>, b: seq<string>, pending: string)
    ensures Scan(a + b, pending) == Scan(a, pending) + Scan(b, Carry(a, pending))
    decreases |a|
  {
    if a == [] {
      assert a + b == b;
    } else {
      assert (a + b)[1..] == a[1..] + b;
      assert (a + b)[0] == a[0];
      var step := ReadStep(a[0], pending);
      ScanConcat(a[1..], b, step.1);
      Associative(step.0, Scan(a[1..], step.1), Scan(b, Carry(a[1..], step.1)));
    }
  }

  /** A file that ends outside a continuation reads as the concatenation of the entries of its pieces. */
  lemma EntriesConcat(a: seq<string>, b: seq<string>)
    requires Carry(a, []) == []
    ensures Entries(a + b) == Entries(a) + Entries(b)
  {
    ScanConcat(a, b, []);
  }
}
