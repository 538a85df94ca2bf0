/**
 * The parser that turns the captured output of the bridge's `devices`
 * command into a list of device identifiers (`getListDevices`).
 *
 * The pipeline, in the order the source applies it:
 *   join the captured chunks with '\n', split on '\n',
 *   keep the lines longer than one character,
 *   cut each kept line before its first tab and delete its first '\r',
 *   drop the first (header) entry.
 */
module DeviceList {

  const NewLine: char := '\n'
  const Tab: char := '\t'
  const CarriageReturn: char := '\r'

  /** `Array.prototype.join(sep)`: the pieces with `sep` between neighbours. */
  function Join(pieces: seq<string>, sep: char): string
  {
    if |pieces| == 0 then ""
    else if |pieces| == 1 then pieces[0]
    else pieces[0] + [sep] + Join(pieces[1..], sep)
  }

  /** `String.prototype.split(sep)` for a one-character separator: never empty. */
  function Split(s: string, sep: char): (r: seq<string>)
    ensures |r| >= 1
    decreases |s|
  {
    if |s| == 0 then [""]
    else
      var rest := Split(s[1..], sep);
      if s[0] == sep then [""] + rest
      else [[s[0]] + rest[0]] + rest[1..]
  }

  /** Position of the first `c` in `s`, or `|s|` when there is none. */
  function IndexOf(s: string, c: char): (i: nat)
    ensures i <= |s|
    ensures i < |s| ==> s[i] == c
    ensures c !in s[..i]
  {
    if |s| == 0 then 0
    else if s[0] == c then 0
    else
      var j := IndexOf(s[1..], c);
      assert s[..j + 1] == [s[0]] + s[1..][..j];
      1 + j
  }

  /** `s.replace(c, "")` with a one-character string pattern: only the first occurrence goes. */
  function RemoveFirst(s: string, c: char): (r: string)
    ensures r == if IndexOf(s, c) < |s| then s[..IndexOf(s, c)] + s[IndexOf(s, c) + 1..] else s
  {
    if |s| == 0 then s
    else if s[0] == c then s[1..]
    else
      var rest := RemoveFirst(s[1..], c);
      assert s == [s[0]] + s[1..];
      [s[0]] + rest
  }

  /** The lines of the captured output: `str.join('\n').split('\n')`. */
  function Lines(chunks: seq<string>): seq<string>
  {
    Split(Join(chunks, NewLine), NewLine)
  }

  /** `.filter(s => s.length > 1)`. */
  function KeepLong(lines: seq<string>): (r: seq<string>)
    ensures |r| <= |lines|
    ensures forall k :: 0 <= k < |r| ==> |r[k]| > 1
  {
    if |lines| == 0 then []
    else (if |lines[0]| > 1 then [lines[0]] else []) + KeepLong(lines[1..])
  }

  /** One entry: `st.split('\t')[0].replace("\r", "")`. */
  function Clean(line: string): string
  {
    RemoveFirst(Split(line, Tab)[0], CarriageReturn)
  }

  /** `.map(Clean)`. */
  function CleanAll(lines: seq<string>): (r: seq<string>)
    ensures |r| == |lines|
    ensures forall k :: 0 <= k < |r| ==> r[k] == Clean(lines[k])
  {
    if |lines| == 0 then [] else [Clean(lines[0])] + CleanAll(lines[1..])
  }

  /** The device identifiers reported by one `devices` call (src/index.js:162-171). */
  function ParseDevices(chunks: seq<string>): seq<string>
  {
    var cleaned := CleanAll(KeepLong(Lines(chunks)));
    if |cleaned| == 0 then [] else cleaned[1..]
  }

  // ---------------------------------------------------------------------------
  // Splitting and joining

  /** Every piece that `Split` returns is free of the separator. */
  lemma {:induction false} SplitPiecesFree(s: string, sep: char)
    ensures forall k :: 0 <= k < |Split(s, sep)| ==> sep !in Split(s, sep)[k]
    decreases |s|
  {
    if |s| > 0 {
      SplitPiecesFree(s[1..], sep);
    }
  }

  /** Joining the pieces of a split gives back the original string. */
  lemma {:induction false} JoinSplit(s: string, sep: char)
    ensures Join(Split(s, sep), sep) == s
    decreases |s|
  {
    if |s| > 0 {
      var rest := Split(s[1..], sep);
      JoinSplit(s[1..], sep);
      if s[0] == sep {
        assert ([""] + rest)[1..] == rest;
      } else {
        var r := [[s[0]] + rest[0]] + rest[1..];
        if |rest| > 1 {
          assert r[1..] == rest[1..];
        }
      }
    }
  }

  /** A piece without the separator, followed by the separator, splits off as one piece. */
  lemma {:induction false} SplitCons(a: string, b: string, sep: char)
    requires sep !in a
    ensures Split(a + [sep] + b, sep) == [a] + Split(b, sep)
    decreases |a|
  {
    if |a| == 0 {
      assert (a + [sep] + b)[1..] == b;
    } else {
      assert (a + [sep] + b)[1..] == a[1..] + [sep] + b;
      SplitCons(a[1..], b, sep);
      assert [a[0]] + a[1..] == a;
    }
  }

  /** A string without the separator splits into itself. */
  lemma {:induction false} SplitSingle(a: string, sep: char)
    requires sep !in a
    ensures Split(a, sep) == [a]
    decreases |a|
  {
    if |a| > 0 {
      SplitSingle(a[1..], sep);
      assert [a[0]] + a[1..] == a;
    }
  }

  /** Splitting a join of separator-free pieces gives back the pieces. */
  lemma {:induction false} SplitJoin(pieces: seq<string>, sep: char)
    requires |pieces| >= 1
    requires forall k :: 0 <= k < |pieces| ==> sep !in pieces[k]
    ensures Split(Join(pieces, sep), sep) == pieces
  {
    if |pieces| == 1 {
      SplitSingle(pieces[0], sep);
    } else {
      SplitJoin(pieces[1..], sep);
      SplitCons(pieces[0], Join(pieces[1..], sep), sep);
      assert [pieces[0]] + pieces[1..] == pieces;
    }
  }

  /** The first piece of a split is the part of the string before the first separator. */
  lemma {:induction false} SplitHead(s: string, sep: char)
    ensures Split(s, sep)[0] == s[..IndexOf(s, sep)]
    decreases |s|
  {
    if |s| > 0 && s[0] != sep {
      SplitHead(s[1..], sep);
    }
  }

  // ---------------------------------------------------------------------------
  // The line filter

  /** The filter distributes over concatenation: it keeps order and drops nothing else. */
  lemma {:induction false} KeepLongAppend(a: seq<string>, b: seq<string>)
    ensures KeepLong(a + b) == KeepLong(a) + KeepLong(b)
    decreases |a|
  {
    if |a| > 0 {
      var head := if |a[0]| > 1 then [a[0]] else [];
      assert (a + b)[0] == a[0];
      assert (a + b)[1..] == a[1..] + b;
      KeepLongAppend(a[1..], b);
      calc {
        KeepLong(a + b);
        head + KeepLong(a[1..] + b);
        head + (KeepLong(a[1..]) + KeepLong(b));
        (head + KeepLong(a[1..])) + KeepLong(b);
        KeepLong(a) + KeepLong(b);
      }
    } else {
      assert a + b == b;
    }
  }

  /** A single line is kept exactly when it is longer than one character. */
  lemma KeepLongSingle(line: string)
    ensures KeepLong([line]) == if |line| > 1 then [line] else []
  {
    assert [line][1..] == [];
  }

  /** Every kept line is one of the input lines. */
  lemma {:induction false} KeepLongFrom(lines: seq<string>)
    ensures forall k :: 0 <= k < |KeepLong(lines)| ==> KeepLong(lines)[k] in lines
  {
    if |lines| > 0 {
      KeepLongFrom(lines[1..]);
    }
  }

  // ---------------------------------------------------------------------------
  // Entry shape

  /** Removing the first `c` takes out at most that one character and adds none. */
  lemma RemoveFirstChars(s: string, c: char)
    ensures |RemoveFirst(s, c)| == |s| - (if c in s then 1 else 0)
    ensures forall ch :: ch in RemoveFirst(s, c) ==> ch in s
  {
    var i := IndexOf(s, c);
    if i < |s| {
      assert s == s[..i] + [s[i]] + s[i + 1..];
      assert c in s;
    } else {
      assert s[..i] == s;
    }
  }

  /** An entry is its line cut before the first tab with the first '\r' of that part removed. */
  lemma EntryShape(line: string)
    ensures Clean(line) == RemoveFirst(line[..IndexOf(line, Tab)], CarriageReturn)
    ensures Tab !in Clean(line)
    ensures forall ch :: ch in Clean(line) ==> ch in line
    ensures |Clean(line)| == IndexOf(line, Tab) - (if CarriageReturn in line[..IndexOf(line, Tab)] then 1 else 0)
  {
    SplitHead(line, Tab);
    var head := line[..IndexOf(line, Tab)];
    RemoveFirstChars(head, CarriageReturn);
    assert forall ch :: ch in head ==> ch in line;
  }

  // ---------------------------------------------------------------------------
  // The parser as a whole

  /**
   * The result is the kept lines, cleaned, without the first one: its length is one less
   * than the number of lines longer than one character (never negative), its k-th entry
   * comes from the (k+1)-th kept line, and no entry holds a tab or a line break.
   */
  lemma ParseDevicesSpec(chunks: seq<string>)
    ensures var kept := KeepLong(Lines(chunks));
      && |ParseDevices(chunks)| == (if |kept| == 0 then 0 else |kept| - 1)
      && (forall k :: 0 <= k < |ParseDevices(chunks)| ==> ParseDevices(chunks)[k] == Clean(kept[k + 1]))
    ensures forall k :: 0 <= k < |ParseDevices(chunks)| ==>
      Tab !in ParseDevices(chunks)[k] && NewLine !in ParseDevices(chunks)[k]
  {
    var lines := Lines(chunks);
    var kept := KeepLong(lines);
    var r := ParseDevices(chunks);
    SplitPiecesFree(Join(chunks, NewLine), NewLine);
    KeepLongFrom(lines);
    forall k | 0 <= k < |r| ensures Tab !in r[k] && NewLine !in r[k] {
      EntryShape(kept[k + 1]);
      assert NewLine !in kept[k + 1];
    }
  }

  /** Output with at most one line longer than one character (a header alone) yields no devices. */
  lemma HeaderOnly(chunks: seq<string>)
    requires |KeepLong(Lines(chunks))| <= 1
    ensures ParseDevices(chunks) == []
  {
  }

  /**
   * A header line followed by two `<id>\t<state>` lines yields the two identifiers,
   * in order, whatever the header and state words are.
   */
  lemma TwoDevices(header: string, a: string, b: string, state: string)
    requires |header| > 1 && NewLine !in header && |state| > 0
    requires NewLine !in a + [Tab] + state && NewLine !in b + [Tab] + state
    requires Tab !in a && Tab !in b && CarriageReturn !in a && CarriageReturn !in b
    ensures ParseDevices([header + [NewLine] + a + [Tab] + state + [NewLine] + b + [Tab] + state + [NewLine]])
         == [a, b]
  {
    var first, second := a + [Tab] + state, b + [Tab] + state;
    var text := header + [NewLine] + a + [Tab] + state + [NewLine] + b + [Tab] + state + [NewLine];
    assert Join([text], NewLine) == text;
    assert text == header + [NewLine] + (first + [NewLine] + (second + [NewLine] + ""));
    SplitSingle("", NewLine);
    SplitCons(second, "", NewLine);
    SplitCons(first, second + [NewLine] + "", NewLine);
    SplitCons(header, first + [NewLine] + (second + [NewLine] + ""), NewLine);
    assert Lines([text]) == [header, first, second, ""];
    KeptLines(header, first, second);
    CleanEntry(a, state);
    CleanEntry(b, state);
    assert CleanAll([header, first, second]) == [Clean(header), a, b];
  }

  lemma KeptLines(header: string, first: string, second: string)
    requires |header| > 1 && |first| > 1 && |second| > 1
    ensures KeepLong([header, first, second, ""]) == [header, first, second]
  {
    assert [header, first, second, ""] == [header] + [first] + [second] + [""];
    KeepLongAppend([header] + [first] + [second], [""]);
    KeepLongAppend([header] + [first], [second]);
    KeepLongAppend([header], [first]);
    KeepLongSingle(header);
    KeepLongSingle(first);
    KeepLongSingle(second);
    KeepLongSingle("");
  }

  lemma CleanEntry(id: string, state: string)
    requires Tab !in id && CarriageReturn !in id
    ensures Clean(id + [Tab] + state) == id
  {
    var line := id + [Tab] + state;
    EntryShape(line);
    assert line[|id|] == Tab;
    assert line[..|id|] == id;
    assert IndexOf(line, Tab) == |id|;
    assert IndexOf(id, CarriageReturn) == |id|;
  }

  /**
   * The length filter runs before the tab cut: a line that is a tab followed by
   * a state word is kept, and becomes an empty entry.
   */
  lemma TabLineKept(state: string)
    requires |state| > 0
    ensures KeepLong([[Tab] + state]) == [[Tab] + state]
    ensures Clean([Tab] + state) == ""
  {
    KeepLongSingle([Tab] + state);
    CleanEntry("", state);
    assert [] + [Tab] + state == [Tab] + state;
  }

  /** The bridge's usual reply for two attached devices. */
  lemma TwoDevicesExample(output: string)
    requires output == "List of devices attached\nABCD123\tdevice\nEFGH456\tdevice\n"
    ensures ParseDevices([output]) == ["ABCD123", "EFGH456"]
  {
    var header, a, b, state := "List of devices attached", "ABCD123", "EFGH456", "device";
    ExampleText(output, header, a, b, state);
    TwoDevices(header, a, b, state);
  }

  lemma ExampleText(output: string, header: string, a: string, b: string, state: string)
    requires output == "List of devices attached\nABCD123\tdevice\nEFGH456\tdevice\n"
    requires header == "List of devices attached" && state == "device"
    requires a == "ABCD123" && b == "EFGH456"
    ensures output == header + [NewLine] + a + [Tab] + state + [NewLine] + b + [Tab] + state + [NewLine]
  {
  }
}
