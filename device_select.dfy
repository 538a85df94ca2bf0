/**
 * Presenting the device list and choosing from it: the `lit` entry formatter
 * (src/index.js:214-220), the listing it builds with `list.map(lit)`, and the
 * index rule of `selectFrom` (src/index.js:134-142).
 *
 * Colour is an abstract tag: a segment of an entry is either plain or
 * highlighted (the source paints highlighted text green).
 */
module DeviceSelect {
  import opened ConfigStore

  datatype Segment = Plain(text: string) | Highlighted(text: string)

  /** One formatted entry of the device listing. */
  type Entry = seq<Segment>

  /** The characters of an entry, colour dropped. */
  function Render(e: Entry): string
  {
    if |e| == 0 then "" else e[0].text + Render(e[1..])
  }

  /** The highlighted texts of an entry, in order. */
  function Highlights(e: Entry): seq<string>
  {
    if |e| == 0 then []
    else (if e[0].Highlighted? then [e[0].text] else []) + Highlights(e[1..])
  }

  // ---------------------------------------------------------------------------
  // Decimal numerals (how a template literal shows the index)

  function DigitChar(d: nat): char
    requires d < 10
  {
    "0123456789"[d]
  }

  predicate IsDigit(ch: char)
  {
    '0' <= ch <= '9'
  }

  /** The decimal numeral of `n`, without leading zeros. */
  function Digits(n: nat): (s: string)
    ensures |s| >= 1
    ensures forall k :: 0 <= k < |s| ==> IsDigit(s[k])
  {
    if n < 10 then [DigitChar(n)] else Digits(n / 10) + [DigitChar(n % 10)]
  }

  /** The number a numeral of decimal digits stands for. */
  function NumeralValue(s: string): nat
    requires forall k :: 0 <= k < |s| ==> IsDigit(s[k])
  {
    if |s| == 0 then 0
    else
      assert IsDigit(s[|s| - 1]);
      10 * NumeralValue(s[..|s| - 1]) + (s[|s| - 1] as int - '0' as int) as nat
  }

  /** The numeral shown for an index reads back as that index. */
  lemma {:induction false} DigitsValue(n: nat)
    ensures NumeralValue(Digits(n)) == n
  {
    if n >= 10 {
      var s := Digits(n);
      DigitsValue(n / 10);
      assert s[..|s| - 1] == Digits(n / 10);
    }
  }

  // ---------------------------------------------------------------------------
  // The entry formatter

  /** `selectedDevice === undefined || selectedDevice === null`. */
  predicate NoSelection(selected: Option<Json>)
  {
    selected.None? || selected == Some(JNull)
  }

  /** `selectedDevice === str`. */
  predicate IsSelected(selected: Option<Json>, name: string)
  {
    selected == Some(JText(name))
  }

  lemma {:induction false} RenderAppend(a: Entry, b: Entry)
    ensures Render(a + b) == Render(a) + Render(b)
    ensures Highlights(a + b) == Highlights(a) + Highlights(b)
  {
    if |a| == 0 {
      assert a + b == b;
    } else {
      assert (a + b)[1..] == a[1..] + b;
      RenderAppend(a[1..], b);
    }
  }

  lemma RenderOne(s: Segment)
    ensures Render([s]) == s.text
    ensures Highlights([s]) == if s.Highlighted? then [s.text] else []
  {
    assert [s][1..] == [];
  }

  /**
   * `lit(str, index)`.  With no selection: `[ <index> ] <name>`; otherwise
   * `[ <mark> ] <index> - <name>`, the mark being a highlighted `X` on the
   * selected device and empty on the others.
   */
  function Lit(selected: Option<Json>, name: string, index: nat): (e: Entry)
    ensures Highlights(e) == if IsSelected(selected, name) then ["X", name] else []
  {
    var shown := if IsSelected(selected, name) then Highlighted(name) else Plain(name);
    if NoSelection(selected) then
      var lead := Plain("[ " + Digits(index) + " ] ");
      RenderOne(lead);
      RenderOne(shown);
      RenderAppend([lead], [shown]);
      [lead] + [shown]
    else
      var open, close := Plain("[ "), Plain(" ] " + Digits(index) + " - ");
      var mark := if IsSelected(selected, name) then Highlighted("X") else Plain("");
      LitHighlights(open, mark, close, shown);
      [open] + [mark] + [close] + [shown]
  }

  lemma LitHighlights(open: Segment, mark: Segment, close: Segment, shown: Segment)
    ensures Highlights([open] + [mark] + [close] + [shown])
         == Highlights([open]) + Highlights([mark]) + Highlights([close]) + Highlights([shown])
    ensures Render([open] + [mark] + [close] + [shown])
         == open.text + mark.text + close.text + shown.text
  {
    RenderOne(open);
    RenderOne(mark);
    RenderOne(close);
    RenderOne(shown);
    RenderAppend([open], [mark]);
    RenderAppend([open] + [mark], [close]);
    RenderAppend([open] + [mark] + [close], [shown]);
  }

  /**
   * What `lit` prints once colour is dropped: the index as a decimal numeral
   * and the device name last, the `X` mark present only on the selected device.
   */
  lemma LitText(selected: Option<Json>, name: string, index: nat)
    ensures Render(Lit(selected, name, index)) == (if NoSelection(selected) then "[ " + Digits(index) + " ] " + name
      else "[ " + (if IsSelected(selected, name) then "X" else "") + (" ] " + Digits(index) + " - ") + name)
  {
    if NoSelection(selected) {
      LitTextUnselected(selected, name, index);
    } else {
      LitTextSelected(selected, name, index);
    }
  }

  lemma LitTextUnselected(selected: Option<Json>, name: string, index: nat)
    requires NoSelection(selected)
    ensures Render(Lit(selected, name, index)) == "[ " + Digits(index) + " ] " + name
  {
    var shown := if IsSelected(selected, name) then Highlighted(name) else Plain(name);
    var lead := Plain("[ " + Digits(index) + " ] ");
    RenderOne(lead);
    RenderOne(shown);
    RenderAppend([lead], [shown]);
    assert Lit(selected, name, index) == [lead] + [shown];
  }

  lemma LitTextSelected(selected: Option<Json>, name: string, index: nat)
    requires !NoSelection(selected)
    ensures Render(Lit(selected, name, index))
         == "[ " + (if IsSelected(selected, name) then "X" else "") + (" ] " + Digits(index) + " - ") + name
  {
    var shown := if IsSelected(selected, name) then Highlighted(name) else Plain(name);
    var open, close := Plain("[ "), Plain(" ] " + Digits(index) + " - ");
    var mark := if IsSelected(selected, name) then Highlighted("X") else Plain("");
    LitHighlights(open, mark, close, shown);
    assert Lit(selected, name, index) == [open] + [mark] + [close] + [shown];
  }

  /** `list.map(lit)`: entry k formats the k-th device with index k. */
  function Listing(selected: Option<Json>, list: seq<string>): seq<Entry>
  {
    seq(|list|, k requires 0 <= k < |list| => Lit(selected, list[k], k))
  }

  /**
   * The listing has one entry per device.  Entry k shows the entry's own
   * position k as its index and the k-th device's name, and it is marked and
   * highlighted exactly when that device is the selected one.
   */
  lemma ListingMarks(selected: Option<Json>, list: seq<string>, k: nat)
    requires k < |list|
    ensures |Listing(selected, list)| == |list|
    ensures var e := Listing(selected, list)[k];
      && (Highlights(e) != [] <==> IsSelected(selected, list[k]))
      && (IsSelected(selected, list[k]) ==> Highlights(e)[0] == "X")
    ensures Render(Listing(selected, list)[k]) == (if NoSelection(selected) then "[ " + Digits(k) + " ] " + list[k]
      else "[ " + (if IsSelected(selected, list[k]) then "X" else "") + (" ] " + Digits(k) + " - ") + list[k])
  {
    LitText(selected, list[k], k);
  }

  // ---------------------------------------------------------------------------
  // Choosing by index

  /** The index check of `selectFrom`: an answer picks `list[index]` exactly when it is in range. */
  function SelectFrom(list: seq<string>, index: int): Option<string>
  {
    if 0 <= index < |list| then Some(list[index]) else None
  }

  /**
   * Choosing by index can only pick a listed device, and every listed device
   * can be picked by some answer.
   */
  lemma SelectFromListed(list: seq<string>)
    ensures forall i :: SelectFrom(list, i).Some? ==> SelectFrom(list, i).value in list
    ensures forall d :: d in list ==> exists i :: SelectFrom(list, i) == Some(d)
  {
    forall d | d in list
      ensures exists i :: SelectFrom(list, i) == Some(d)
    {
      var i :| 0 <= i < |list| && list[i] == d;
      assert SelectFrom(list, i) == Some(d);
    }
  }

  /**
   * Answering with the index an entry shows picks that entry's device: the
   * numeral of entry k reads back as k, and k is accepted.
   */
  lemma AnswerShownIndex(list: seq<string>, k: nat)
    requires k < |list|
    ensures SelectFrom(list, NumeralValue(Digits(k))) == Some(list[k])
  {
    DigitsValue(k);
  }
}
