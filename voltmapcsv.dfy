/** Persistence of the frequency-to-voltage map in freq_volt_map.csv: one
    [key, value] row per map entry, written with str() of each number and read
    back with dict(csv.reader(...)), which gives text keys and values. */
module VoltMapCsv {

  import Bench

  datatype Option<T> = None | Some(value: T)

  /** One CSV row: its cells, as text. */
  type CsvRow = seq<string>

  function Digit(d: nat): char
    requires d < 10
  {
    "0123456789"[d]
  }

  function DigitValue(c: char): int
  {
    if '0' <= c <= '9' then c as int - '0' as int else -1
  }

  /** str(n) for a natural number: its decimal digits, most significant first. */
  function NatText(n: nat): (t: string)
    ensures |t| > 0 && forall k :: 0 <= k < |t| ==> '0' <= t[k] <= '9'
  {
    if n < 10 then [Digit(n)] else NatText(n / 10) + [Digit(n % 10)]
  }

  /** str(n) for an integer. */
  function Text(n: int): string
  {
    if n < 0 then "-" + NatText(-n) else NatText(n)
  }

  /** The number a string of decimal digits denotes. */
  function NatValue(t: string): int
  {
    if t == [] then 0 else NatValue(t[..|t| - 1]) * 10 + DigitValue(t[|t| - 1])
  }

  lemma {:induction false} NatTextRoundTrip(n: nat)
    ensures NatValue(NatText(n)) == n
  {
    if n >= 10 {
      NatTextRoundTrip(n / 10);
      var t := NatText(n);
      assert t[..|t| - 1] == NatText(n / 10);
    }
  }

  /** int(t): the integer a decimal text denotes. */
  function IntValue(t: string): int
  {
    if |t| > 0 && t[0] == '-' then -NatValue(t[1..]) else NatValue(t)
  }

  /** int(str(n)) == n. */
  lemma TextRoundTrip(n: int)
    ensures IntValue(Text(n)) == n
  {
    if n < 0 {
      var t := NatText(-n);
      assert ("-" + t)[1..] == t;
      NatTextRoundTrip(-n);
    } else {
      NatTextRoundTrip(n);
    }
  }

  /** str() is injective on integers, so map keys stay distinct as text. */
  lemma TextInjective(a: int, b: int)
    requires Text(a) == Text(b)
    ensures a == b
  {
    TextRoundTrip(a);
    TextRoundTrip(b);
  }

  lemma TextInjectiveAll()
    ensures forall a: int, b: int :: Text(a) == Text(b) ==> a == b
  {
    forall a: int, b: int | Text(a) == Text(b)
      ensures a == b
    {
      TextInjective(a, b);
    }
  }

  /** The row written for the entry k of m. */
  function Row(m: map<int, int>, k: int): CsvRow
    requires k in m
  {
    [Text(k), Text(m[k])]
  }

  /** order lists every key of m exactly once: a dictionary iteration order. */
  ghost predicate IsOrdering(order: seq<int>, m: map<int, int>)
  {
    && (forall i, j :: 0 <= i < j < |order| ==> order[i] != order[j])
    && (forall i :: 0 <= i < |order| ==> order[i] in m)
    && (forall k :: k in m ==> k in order)
  }

  /** The rows written for the keys in order. */
  function RowsOf(order: seq<int>, m: map<int, int>): (rows: seq<CsvRow>)
    requires forall i :: 0 <= i < |order| ==> order[i] in m
    ensures |rows| == |order|
  {
    if order == [] then []
    else RowsOf(order[..|order| - 1], m) + [Row(m, order[|order| - 1])]
  }

  /** rows is what write_vmap_to_csv(m) writes, for some iteration order of m. */
  ghost predicate IsRowsOf(rows: seq<CsvRow>, m: map<int, int>)
  {
    exists order :: IsOrdering(order, m) && rows == RowsOf(order, m)
  }

  /** The loop of write_vmap_to_csv: one [key, value] row per item of the
      dictionary, in its iteration order. */
  method MapRows(m: map<int, int>) returns (rows: seq<CsvRow>, ghost order: seq<int>)
    ensures IsOrdering(order, m) && rows == RowsOf(order, m)
    ensures |rows| == |m|
  {
    var rest := m.Keys;
    rows, order := [], [];
    while rest != {}
      invariant rest <= m.Keys
      invariant forall i, j :: 0 <= i < j < |order| ==> order[i] != order[j]
      invariant forall i :: 0 <= i < |order| ==> order[i] in m && order[i] !in rest
      invariant forall k :: k in m ==> k in order || k in rest
      invariant rows == RowsOf(order, m)
      invariant |order| + |rest| == |m|
      decreases |rest|
    {
      Bench.Inhabited(rest);
      var k :| k in rest;
      rows := rows + [Row(m, k)];
      order := order + [k];
      rest := rest - {k};
    }
  }

  /** dict(rows): each row must have exactly two cells, or dict() raises;
      a later row overrides an earlier one with the same key. */
  function Dict(rows: seq<CsvRow>): Option<map<string, string>>
  {
    if rows == [] then Some(map[])
    else
      match Dict(rows[..|rows| - 1])
      case None => None
      case Some(d) =>
        var last := rows[|rows| - 1];
        if |last| != 2 then None else Some(d[last[0] := last[1]])
  }

  /** read_vmap_from_csv: None when the file cannot be opened or a row does not
      make one dictionary item; otherwise the text pairs the file holds. */
  function ReadVmap(file: Option<seq<CsvRow>>): Option<map<string, string>>
  {
    match file
    case None => None
    case Some(rows) => Dict(rows)
  }

  /** The text image of m: the dictionary reading m's file back gives. */
  function Shown(m: map<int, int>): (r: map<string, string>)
    ensures forall k :: k in m ==> Text(k) in r && r[Text(k)] == Text(m[k])
    ensures forall t :: t in r ==> exists k :: k in m && t == Text(k)
  {
    TextInjectiveAll();
    map k | k in m :: Text(k) := Text(m[k])
  }

  /** The keys of order, as text. */
  function KeyTexts(order: seq<int>): set<string>
  {
    if order == [] then {} else KeyTexts(order[..|order| - 1]) + {Text(order[|order| - 1])}
  }

  lemma {:induction false} KeyTextsWithin(order: seq<int>, m: map<int, int>)
    requires forall i :: 0 <= i < |order| ==> order[i] in m
    ensures KeyTexts(order) <= Shown(m).Keys
  {
    if order != [] {
      KeyTextsWithin(order[..|order| - 1], m);
    }
  }

  /** Reading back the rows of the keys in order gives their text image. */
  lemma {:induction false} DictOfRows(order: seq<int>, m: map<int, int>)
    requires forall i :: 0 <= i < |order| ==> order[i] in m
    ensures Dict(RowsOf(order, m)).Some?
    ensures Dict(RowsOf(order, m)).value.Keys == KeyTexts(order)
    ensures forall k :: k in order ==>
      Text(k) in Dict(RowsOf(order, m)).value && Dict(RowsOf(order, m)).value[Text(k)] == Text(m[k])
  {
    if order != [] {
      var front := order[..|order| - 1];
      var last := order[|order| - 1];
      DictOfRows(front, m);
      var rows := RowsOf(order, m);
      assert rows == RowsOf(front, m) + [Row(m, last)];
      assert rows[..|rows| - 1] == RowsOf(front, m);
      var d := Dict(RowsOf(front, m)).value;
      var d' := Dict(rows).value;
      assert d' == d[Text(last) := Text(m[last])];
      assert order == front + [last];
      forall k | k in order
        ensures Text(k) in d' && d'[Text(k)] == Text(m[k])
      {
        if k != last {
          assert k in front;
          if Text(k) == Text(last) {
            TextInjective(k, last);
          }
        }
      }
    }
  }

  /** Round trip: what write_vmap_to_csv(m) writes, read_vmap_from_csv reads
      back as exactly m's pairs, as text, whatever the iteration order. */
  lemma WriteThenRead(rows: seq<CsvRow>, m: map<int, int>)
    requires IsRowsOf(rows, m)
    ensures ReadVmap(Some(rows)) == Some(Shown(m))
  {
    var order :| IsOrdering(order, m) && rows == RowsOf(order, m);
    ReadOrdered(order, m);
  }

  /** Every pair of m's text image is in the dictionary read back. */
  lemma ShownRead(order: seq<int>, m: map<int, int>)
    requires IsOrdering(order, m)
    ensures Dict(RowsOf(order, m)).Some?
    ensures forall t :: t in Shown(m) ==>
      t in Dict(RowsOf(order, m)).value && Dict(RowsOf(order, m)).value[t] == Shown(m)[t]
  {
    DictOfRows(order, m);
    forall t | t in Shown(m)
      ensures t in Dict(RowsOf(order, m)).value && Dict(RowsOf(order, m)).value[t] == Shown(m)[t]
    {
      var k :| k in m && t == Text(k);
      assert k in order;
    }
  }

  lemma ReadOrdered(order: seq<int>, m: map<int, int>)
    requires IsOrdering(order, m)
    ensures Dict(RowsOf(order, m)) == Some(Shown(m))
  {
    DictOfRows(order, m);
    KeyTextsWithin(order, m);
    ShownRead(order, m);
    var d := Dict(RowsOf(order, m)).value;
    assert d.Keys == Shown(m).Keys;
    assert d == Shown(m);
  }

  /** dict(reader) fails exactly when some row does not have two cells. */
  lemma {:induction false} DictFails(rows: seq<CsvRow>)
    ensures Dict(rows).None? <==> exists i :: 0 <= i < |rows| && |rows[i]| != 2
  {
    if rows != [] {
      var front := rows[..|rows| - 1];
      DictFails(front);
      if exists i :: 0 <= i < |front| && |front[i]| != 2 {
        var i :| 0 <= i < |front| && |front[i]| != 2;
        assert rows[i] == front[i];
      }
      if exists i :: 0 <= i < |rows| && |rows[i]| != 2 {
        var i :| 0 <= i < |rows| && |rows[i]| != 2;
        if i < |front| { assert front[i] == rows[i]; }
      }
    }
  }

  /** read_vmap_from_csv gives None exactly when the file is missing or holds a
      row that is not a [key, value] pair. */
  lemma ReadFails(file: Option<seq<CsvRow>>)
    ensures ReadVmap(file).None? <==>
      (file.None? || exists i :: 0 <= i < |file.value| && |file.value[i]| != 2)
  {
    if file.Some? {
      DictFails(file.value);
    }
  }
}
