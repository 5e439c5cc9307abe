/** metrics/metrics_registry.py prints a metric name and its labels as one key;
    monitoring/prometheus/exporter.py reads the key back. */
module MetricKeys {
  import opened Common

  /** A label dictionary in insertion order: no key twice. Values are the text they print as. */
  datatype Label = Label(key: string, value: string)

  predicate IsDict(items: seq<Label>) {
    forall i, j | 0 <= i < j < |items| :: items[i].key != items[j].key
  }

  /** The dictionary as a map; a later entry overwrites an earlier one. */
  function Collected(items: seq<Label>): map<string, string> {
    if items == [] then map[]
    else
      var last := items[|items| - 1];
      Collected(items[..|items| - 1])[last.key := last.value]
  }

  // ---------- the printer ----------

  /** Order of strings by code points. */
  predicate AtMost(x: string, y: string) {
    x == "" || (y != "" && (x[0] < y[0] || (x[0] == y[0] && AtMost(x[1..], y[1..]))))
  }

  function Insert(x: Label, sorted: seq<Label>): seq<Label> {
    if sorted == [] then [x]
    else if AtMost(x.key, sorted[0].key) then [x] + sorted
    else [sorted[0]] + Insert(x, sorted[1..])
  }

  /** Keys differ, so ordering the items is ordering the keys. */
  function Sorted(items: seq<Label>): seq<Label> {
    if items == [] then [] else Insert(items[0], Sorted(items[1..]))
  }

  function Printed(l: Label): string {
    l.key + "=" + l.value
  }

  function Joined(items: seq<Label>): string
    requires items != []
  {
    if |items| == 1 then Printed(items[0]) else Printed(items[0]) + "," + Joined(items[1..])
  }

  function Key(name: string, items: seq<Label>): string {
    if items == [] then name else name + "{" + Joined(Printable(items)) + "}"
  }

  function Printable(items: seq<Label>): (sorted: seq<Label>)
    requires items != []
    ensures sorted != []
  {
    SortedLength(items);
    Sorted(items)
  }

  lemma {:induction false} SortedLength(items: seq<Label>)
    ensures |Sorted(items)| == |items|
  {
    if items != [] {
      SortedLength(items[1..]);
      InsertLength(items[0], Sorted(items[1..]));
    }
  }

  lemma {:induction false} InsertLength(x: Label, sorted: seq<Label>)
    ensures |Insert(x, sorted)| == |sorted| + 1
  {
    if sorted != [] {
      InsertLength(x, sorted[1..]);
    }
  }

  // ---------- the parser ----------

  /** What str.strip removes. */
  predicate IsSpace(c: char) {
    var n := c as int;
    9 <= n <= 13 || 28 <= n <= 32 || n == 0x85 || n == 0xA0 || n == 0x1680 || 0x2000 <= n <= 0x200A
    || n == 0x2028 || n == 0x2029 || n == 0x202F || n == 0x205F || n == 0x3000
  }

  function StripLeft(s: string): string {
    if s != "" && IsSpace(s[0]) then StripLeft(s[1..]) else s
  }

  function StripRight(s: string): string {
    if s != "" && IsSpace(s[|s| - 1]) then StripRight(s[..|s| - 1]) else s
  }

  function Strip(s: string): string {
    StripRight(StripLeft(s))
  }

  function Split(s: string, separator: char): (pieces: seq<string>)
    ensures pieces != []
  {
    if s == "" then [""]
    else
      var rest := Split(s[1..], separator);
      if s[0] == separator then [""] + rest else [[s[0]] + rest[0]] + rest[1..]
  }

  /** The text before and after the first separator; all of it and nothing without one. */
  function Partition(s: string, separator: char): (string, string) {
    if s == "" then ("", "")
    else if s[0] == separator then ("", s[1..])
    else
      var (before, after) := Partition(s[1..], separator);
      ([s[0]] + before, after)
  }

  function ReadLabel(piece: string): Label {
    var (k, v) := Partition(piece, '=');
    Label(Strip(k), Strip(v))
  }

  function ReadLabels(pieces: seq<string>): (items: seq<Label>)
    ensures |items| == |pieces| && forall i | 0 <= i < |items| :: items[i] == ReadLabel(pieces[i])
  {
    seq(|pieces|, i requires 0 <= i < |pieces| => ReadLabel(pieces[i]))
  }

  /** An opening brace with at least one character, and no line break, before the closing brace. */
  predicate Opens(stem: string, i: int) {
    0 <= i && i + 2 < |stem| && stem[i] == '{' && '\n' !in stem[i + 1..|stem| - 1]
  }

  function FirstOpening(stem: string, i: nat): (at: Option<nat>)
    decreases |stem| - i
    ensures at.Some? ==> i <= at.value && Opens(stem, at.value) && forall j | i <= j < at.value :: !Opens(stem, j)
    ensures at.None? ==> forall j | i <= j < |stem| :: !Opens(stem, j)
  {
    if i >= |stem| then None
    else if Opens(stem, i) then Some(i)
    else FirstOpening(stem, i + 1)
  }

  /** The end-of-string anchor also matches before a final line break. */
  function Stem(key: string): string {
    if key != "" && key[|key| - 1] == '\n' then key[..|key| - 1] else key
  }

  /** Where the braced part of a key begins: the first place the pattern matches. */
  function MatchStart(key: string): (at: Option<nat>)
    ensures at.Some? ==> at.value + 2 < |Stem(key)| <= |key|
  {
    var stem := Stem(key);
    if stem != "" && stem[|stem| - 1] == '}' then FirstOpening(stem, 0) else None
  }

  function Group(key: string, at: nat): string
    requires at + 2 < |Stem(key)|
  {
    Stem(key)[at + 1..|Stem(key)| - 1]
  }

  function Parse(key: string): (string, map<string, string>) {
    var at := MatchStart(key);
    if at.None? then (key, map[])
    else (key[..at.value], Collected(ReadLabels(Split(Group(key, at.value), ','))))
  }

  method ParseKey(key: string) returns (base: string, labels: map<string, string>)
    ensures (base, labels) == Parse(key)
  {
    hide Partition, Strip, Split, Group;
    var at := MatchStart(key);
    if at.None? { return key, map[]; }
    base, labels := key[..at.value], map[];
    var parts := Split(Group(key, at.value), ',');
    ghost var items := ReadLabels(parts);
    for n := 0 to |parts|
      invariant labels == Collected(items[..n])
    {
      var (k, v) := Partition(parts[n], '=');
      labels := labels[Strip(k) := Strip(v)];
      assert items[..n + 1][..n] == items[..n];
    }
    assert items[..|parts|] == items;
  }

  // ---------- order ----------

  lemma {:induction false} OrderIsTotal(x: string, y: string)
    ensures AtMost(x, y) || AtMost(y, x)
    ensures AtMost(x, y) && AtMost(y, x) ==> x == y
  {
    if x != "" && y != "" && x[0] == y[0] {
      OrderIsTotal(x[1..], y[1..]);
      assert x == [x[0]] + x[1..] && y == [y[0]] + y[1..];
    }
  }

  lemma {:induction false} OrderIsTransitive(x: string, y: string, z: string)
    requires AtMost(x, y) && AtMost(y, z)
    ensures AtMost(x, z)
  {
    if x != "" && x[0] == y[0] && y[0] == z[0] {
      OrderIsTransitive(x[1..], y[1..], z[1..]);
    }
  }

  predicate Ascending(items: seq<Label>) {
    forall i, j | 0 <= i < j < |items| :: AtMost(items[i].key, items[j].key)
  }

  lemma {:induction false} InsertAdds(x: Label, sorted: seq<Label>)
    ensures multiset(Insert(x, sorted)) == multiset(sorted) + multiset{x}
    decreases |sorted|
  {
    hide AtMost;
    if sorted != [] {
      InsertAdds(x, sorted[1..]);
      assert sorted == [sorted[0]] + sorted[1..];
    }
  }

  predicate BeforeAll(first: Label, items: seq<Label>) {
    forall l | l in items :: AtMost(first.key, l.key)
  }

  lemma AscendingFrom(first: Label, tail: seq<Label>)
    ensures Ascending([first] + tail) <==> BeforeAll(first, tail) && Ascending(tail)
  {
    hide AtMost;
    var items := [first] + tail;
    if Ascending(items) {
      forall l | l in tail ensures AtMost(first.key, l.key) {
        var j :| 0 <= j < |tail| && tail[j] == l;
        assert items[0] == first && items[j + 1] == l;
      }
      forall i, j | 0 <= i < j < |tail| ensures AtMost(tail[i].key, tail[j].key) {
        assert items[i + 1] == tail[i] && items[j + 1] == tail[j];
      }
    }
  }

  lemma BeforeAllOf(x: Label, first: Label, items: seq<Label>)
    requires AtMost(x.key, first.key) && BeforeAll(first, items)
    ensures BeforeAll(x, items)
  {
    hide AtMost;
    forall l | l in items ensures AtMost(x.key, l.key) {
      OrderIsTransitive(x.key, first.key, l.key);
    }
  }

  lemma BeforeInserted(first: Label, x: Label, items: seq<Label>)
    requires AtMost(first.key, x.key) && BeforeAll(first, items)
    ensures BeforeAll(first, Insert(x, items))
  {
    hide AtMost, Insert;
    InsertAdds(x, items);
    forall l | l in Insert(x, items) ensures AtMost(first.key, l.key) {
      assert l in multiset(Insert(x, items));
    }
  }

  lemma {:induction false} InsertSorts(x: Label, sorted: seq<Label>)
    requires Ascending(sorted)
    ensures Ascending(Insert(x, sorted))
    decreases |sorted|
  {
    hide AtMost, Ascending, BeforeAll;
    if sorted == [] {
      AscendingFrom(x, []);
      NothingAscends(x);
    } else {
      var first, rest := sorted[0], sorted[1..];
      assert sorted == [first] + rest;
      AscendingFrom(first, rest);
      OrderIsTotal(x.key, first.key);
      if AtMost(x.key, first.key) {
        BeforeAllOf(x, first, rest);
        BeforeOneMore(x, first, rest);
        AscendingFrom(x, sorted);
      } else {
        InsertSorts(x, rest);
        BeforeInserted(first, x, rest);
        AscendingFrom(first, Insert(x, rest));
      }
    }
  }

  lemma NothingAscends(x: Label)
    ensures Ascending([]) && BeforeAll(x, []) && [x] + [] == [x]
  {
  }

  lemma BeforeOneMore(x: Label, first: Label, rest: seq<Label>)
    requires AtMost(x.key, first.key) && BeforeAll(x, rest)
    ensures BeforeAll(x, [first] + rest)
  {
    hide AtMost;
  }

  lemma {:induction false} SortedSorts(items: seq<Label>)
    ensures Ascending(Sorted(items)) && multiset(Sorted(items)) == multiset(items)
    decreases |items|
  {
    hide AtMost, Insert, Ascending;
    assert Ascending([]) by { NothingAscends(Label("", "")); }
    if items != [] {
      SortedSorts(items[1..]);
      InsertSorts(items[0], Sorted(items[1..]));
      InsertAdds(items[0], Sorted(items[1..]));
      assert items == [items[0]] + items[1..];
    }
  }

  lemma HeadsAgree(x: seq<Label>, y: seq<Label>)
    requires Ascending(x) && Ascending(y) && IsDict(x) && x != [] && y != []
    requires multiset(x) == multiset(y)
    ensures x[0] == y[0]
  {
    hide AtMost;
    assert x[0] in multiset(y) && y[0] in multiset(x);
    var i :| 0 <= i < |y| && y[i] == x[0];
    var j :| 0 <= j < |x| && x[j] == y[0];
    if i > 0 && j > 0 {
      OrderIsTotal(x[0].key, y[0].key);
    }
  }

  lemma {:induction false} AscendingIsUnique(x: seq<Label>, y: seq<Label>)
    requires Ascending(x) && Ascending(y) && IsDict(x) && multiset(x) == multiset(y)
    ensures x == y
    decreases |x|
  {
    hide Ascending, IsDict;
    assert |multiset(x)| == |x| && |multiset(y)| == |y|;
    if x != [] {
      HeadsAgree(x, y);
      TailsAgree(x, y);
      TailIsAscending(x);
      TailIsAscending(y);
      AscendingIsUnique(x[1..], y[1..]);
    }
  }

  lemma TailIsAscending(x: seq<Label>)
    requires Ascending(x) && x != []
    ensures Ascending(x[1..]) && (IsDict(x) ==> IsDict(x[1..]))
  {
    hide AtMost;
  }

  lemma TailsAgree(x: seq<Label>, y: seq<Label>)
    requires x != [] && y != [] && x[0] == y[0] && multiset(x) == multiset(y)
    ensures multiset(x[1..]) == multiset(y[1..])
  {
    assert x == [x[0]] + x[1..] && y == [y[0]] + y[1..];
    assert multiset(x[1..]) == multiset(x) - multiset{x[0]};
    assert multiset(y[1..]) == multiset(y) - multiset{y[0]};
  }

  // ---------- dictionaries ----------

  lemma {:induction false} CollectedMeans(items: seq<Label>)
    ensures forall k | k in Collected(items) :: Label(k, Collected(items)[k]) in items
    ensures forall l | l in items :: l.key in Collected(items)
    decreases |items|
  {
    if items != [] {
      var n := |items| - 1;
      CollectedMeans(items[..n]);
      assert items == items[..n] + [items[n]];
    }
  }

  lemma DictMeans(items: seq<Label>, l: Label)
    requires IsDict(items) && l in items
    ensures l.key in Collected(items) && Collected(items)[l.key] == l.value
  {
    hide Collected;
    CollectedMeans(items);
    var other := Label(l.key, Collected(items)[l.key]);
    assert other in items;
  }

  lemma {:induction false} DictCounts(items: seq<Label>, l: Label)
    requires IsDict(items)
    ensures multiset(items)[l] == if l in items then 1 else 0
    decreases |items|
  {
    if items != [] {
      assert items == [items[0]] + items[1..];
      DictCounts(items[1..], l);
    }
  }

  lemma CountedTwice(items: seq<Label>, i: nat, j: nat)
    requires i < j < |items| && items[i] == items[j]
    ensures multiset(items)[items[i]] >= 2
  {
    assert items == items[..j] + items[j..];
    assert items[i] in items[..j] && items[j] in items[j..];
  }

  lemma PermutedDict(x: seq<Label>, y: seq<Label>)
    requires IsDict(x) && multiset(x) == multiset(y)
    ensures IsDict(y)
  {
    forall i, j | 0 <= i < j < |y| ensures y[i].key != y[j].key {
      assert y[i] in multiset(x) && y[j] in multiset(x);
      if y[i] == y[j] {
        CountedTwice(y, i, j);
        DictCounts(x, y[i]);
      }
    }
  }

  /** Two listings of one dictionary are permutations of each other, and the other way round. */
  lemma SameDictionary(x: seq<Label>, y: seq<Label>)
    requires IsDict(x) && IsDict(y)
    ensures Collected(x) == Collected(y) <==> multiset(x) == multiset(y)
  {
    hide Collected, IsDict;
    CollectedMeans(x);
    CollectedMeans(y);
    forall l | l in x ensures l.key in Collected(x) && Collected(x)[l.key] == l.value { DictMeans(x, l); }
    forall l | l in y ensures l.key in Collected(y) && Collected(y)[l.key] == l.value { DictMeans(y, l); }
    if Collected(x) == Collected(y) {
      forall l: Label ensures multiset(x)[l] == multiset(y)[l] {
        DictCounts(x, l);
        DictCounts(y, l);
      }
    }
    if multiset(x) == multiset(y) {
      assert forall l :: l in x <==> l in multiset(x);
      assert forall l :: l in y <==> l in multiset(y);
    }
  }

  /** The printed order does not depend on the insertion order. */
  lemma SortedIsCanonical(x: seq<Label>, y: seq<Label>)
    requires IsDict(x) && IsDict(y) && Collected(x) == Collected(y)
    ensures Sorted(x) == Sorted(y)
  {
    hide Sorted, Collected, IsDict, Ascending;
    SameDictionary(x, y);
    SortedSorts(x);
    SortedSorts(y);
    PermutedDict(x, Sorted(x));
    AscendingIsUnique(Sorted(x), Sorted(y));
  }

  // ---------- reading back ----------

  predicate Clean(s: string) {
    s == "" || (!IsSpace(s[0]) && !IsSpace(s[|s| - 1]))
  }

  lemma {:induction false} StripLeftCleans(s: string)
    ensures StripLeft(s) == "" || !IsSpace(StripLeft(s)[0])
    ensures forall c | c in StripLeft(s) :: c in s
    ensures Clean(s) ==> StripLeft(s) == s
    decreases |s|
  {
    hide IsSpace;
    if s != "" && IsSpace(s[0]) {
      StripLeftCleans(s[1..]);
    }
  }

  lemma {:induction false} StripRightCleans(s: string)
    ensures StripRight(s) <= s && (StripRight(s) == "" || !IsSpace(StripRight(s)[|StripRight(s)| - 1]))
    ensures Clean(s) ==> StripRight(s) == s
    decreases |s|
  {
    hide IsSpace;
    if s != "" && IsSpace(s[|s| - 1]) {
      StripRightCleans(s[..|s| - 1]);
    }
  }

  lemma StripCleans(s: string)
    ensures Clean(Strip(s)) && (Clean(s) ==> Strip(s) == s)
    ensures forall c | c in Strip(s) :: c in s
  {
    hide IsSpace, StripLeft, StripRight;
    StripLeftCleans(s);
    StripRightCleans(StripLeft(s));
  }

  lemma {:induction false} SplitPieces(s: string, separator: char)
    ensures forall p | p in Split(s, separator) :: separator !in p && forall c | c in p :: c in s
    decreases |s|
  {
    if s != "" {
      SplitPieces(s[1..], separator);
      var rest, pieces := Split(s[1..], separator), Split(s, separator);
      forall i | 0 <= i < |pieces| ensures separator !in pieces[i] && forall c | c in pieces[i] :: c in s {
        assert s[0] == separator && i > 0 ==> pieces[i] == rest[i - 1];
        assert s[0] != separator && i > 0 ==> pieces[i] == rest[i];
        assert s[0] != separator ==> rest[0] in rest;
      }
    }
  }

  lemma {:induction false} SplitFirst(piece: string, rest: string, separator: char)
    requires separator !in piece
    ensures Split(piece + [separator] + rest, separator) == [piece] + Split(rest, separator)
    decreases |piece|
  {
    var s := piece + [separator] + rest;
    if piece == "" {
      assert s[1..] == rest;
    } else {
      assert s[1..] == piece[1..] + [separator] + rest;
      SplitFirst(piece[1..], rest, separator);
      assert piece == [piece[0]] + piece[1..];
    }
  }

  lemma {:induction false} SplitWhole(piece: string, separator: char)
    requires separator !in piece
    ensures Split(piece, separator) == [piece]
    decreases |piece|
  {
    if piece != "" {
      SplitWhole(piece[1..], separator);
      assert piece == [piece[0]] + piece[1..];
    }
  }

  lemma {:induction false} PartitionAt(before: string, after: string, separator: char)
    requires separator !in before
    ensures Partition(before + [separator] + after, separator) == (before, after)
    decreases |before|
  {
    var s := before + [separator] + after;
    if before == "" {
      assert s[1..] == after;
    } else {
      assert s[1..] == before[1..] + [separator] + after;
      PartitionAt(before[1..], after, separator);
      assert before == [before[0]] + before[1..];
    }
  }

  lemma {:induction false} PartitionParts(s: string, separator: char)
    ensures separator !in Partition(s, separator).0
    ensures forall c | c in Partition(s, separator).0 || c in Partition(s, separator).1 :: c in s
    decreases |s|
  {
    if s != "" {
      PartitionParts(s[1..], separator);
    }
  }

  /** A label the parser can return: no comma, line break or outer space, and no equals sign in its key. */
  predicate ReadableLabel(l: Label) {
    && Clean(l.key) && ',' !in l.key && '=' !in l.key && '\n' !in l.key
    && Clean(l.value) && ',' !in l.value && '\n' !in l.value
  }

  lemma ReadLabelIsReadable(piece: string)
    requires ',' !in piece && '\n' !in piece
    ensures ReadableLabel(ReadLabel(piece))
  {
    hide Clean, Strip, Partition;
    PartitionParts(piece, '=');
    var (k, v) := Partition(piece, '=');
    StripCleans(k);
    StripCleans(v);
  }

  lemma ReadPrinted(l: Label)
    requires ReadableLabel(l)
    ensures ReadLabel(Printed(l)) == l && ',' !in Printed(l) && '\n' !in Printed(l)
  {
    hide Clean, Strip, Partition;
    PartitionAt(l.key, l.value, '=');
    StripCleans(l.key);
    StripCleans(l.value);
  }

  lemma {:induction false} ReadJoined(items: seq<Label>)
    requires items != [] && forall l | l in items :: ReadableLabel(l)
    ensures '\n' !in Joined(items) && ReadLabels(Split(Joined(items), ',')) == items
    decreases |items|
  {
    hide ReadableLabel, ReadLabel, Printed, Split;
    var first := Printed(items[0]);
    ReadPrinted(items[0]);
    if |items| == 1 {
      SplitWhole(first, ',');
    } else {
      var rest := items[1..];
      ReadJoined(rest);
      SplitFirst(first, Joined(rest), ',');
      assert first + "," + Joined(rest) == first + [','] + Joined(rest);
    }
  }

  // ---------- the round trip ----------

  /** In the name of a key with labels, a line break follows every opening brace. */
  predicate NoOpening(name: string) {
    forall i | 0 <= i < |name| && name[i] == '{' :: '\n' in name[i + 1..]
  }

  /** What printing and parsing preserve: a name without labels that does not look like a key with
      labels, or readable labels under a name whose braces the pattern cannot match. */
  predicate Readable(name: string, items: seq<Label>) {
    if items == [] then MatchStart(name).None?
    else NoOpening(name) && forall l | l in items :: ReadableLabel(l)
  }

  /** Names without an opening brace are readable with any readable labels. */
  lemma PlainNamesAreReadable(name: string, items: seq<Label>)
    requires '{' !in name && forall l | l in items :: ReadableLabel(l)
    ensures Readable(name, items)
  {
    hide ReadableLabel;
    assert forall i | 0 <= i < |Stem(name)| :: Stem(name)[i] == name[i];
  }

  lemma JoinedIsNotEmpty(items: seq<Label>)
    requires items != []
    ensures Joined(items) != ""
  {
    assert |Printed(items[0])| > 0;
  }

  /** Where the pattern matches in a printed key. */
  lemma OpeningOfKey(name: string, body: string)
    requires body != ""
    ensures var at := MatchStart(name + "{" + body + "}");
            && (at == Some(|name|) <==> '\n' !in body && NoOpening(name))
            && (at == Some(|name|) ==> Group(name + "{" + body + "}", |name|) == body)
  {
    var key := name + "{" + body + "}";
    assert key[|key| - 1] == '}' && Stem(key) == key;
    assert key[|name| + 1..|key| - 1] == body;
    assert Opens(key, |name|) <==> '\n' !in body;
    forall i | 0 <= i < |name|
      ensures Opens(key, i) <==> name[i] == '{' && '\n' !in name[i + 1..] && '\n' !in body
    {
      assert key[i] == name[i];
      assert key[i + 1..|key| - 1] == name[i + 1..] + "{" + body;
    }
  }

  /** The parser undoes the printer exactly on readable names and labels. */
  lemma RoundTripIff(name: string, items: seq<Label>)
    requires IsDict(items)
    ensures Parse(Key(name, items)) == (name, Collected(items)) <==> Readable(name, items)
  {
    hide Collected, Sorted, Joined, Split, Group, IsDict, MatchStart, NoOpening, ReadableLabel;
    if items == [] {
      assert Collected(items) == map[] by { NothingCollected(); }
    } else {
      if Readable(name, items) {
        ReadableIsParsed(name, items);
      }
      if Parse(Key(name, items)) == (name, Collected(items)) {
        ParsedIsReadable(name, items);
      }
    }
  }

  lemma ReadableIsParsed(name: string, items: seq<Label>)
    requires IsDict(items) && items != [] && Readable(name, items)
    ensures Parse(Key(name, items)) == (name, Collected(items))
  {
    hide Collected, Sorted, Joined, Split, Group, IsDict, MatchStart, NoOpening, ReadableLabel;
    var sorted := Printable(items);
    SortedSorts(items);
    PermutedDict(items, sorted);
    SameDictionary(items, sorted);
    forall l | l in sorted ensures ReadableLabel(l) {
      assert l in multiset(sorted);
    }
    var body := Joined(sorted);
    JoinedIsNotEmpty(sorted);
    OpeningOfKey(name, body);
    ReadJoined(sorted);
    assert Key(name, items)[..|name|] == name;
  }

  lemma NothingCollected()
    ensures Collected([]) == map[]
  {
  }

  lemma ParsedIsReadable(name: string, items: seq<Label>)
    requires IsDict(items) && items != [] && Parse(Key(name, items)) == (name, Collected(items))
    ensures Readable(name, items)
  {
    hide Collected, Sorted, Joined, Split, Group, IsDict, MatchStart, NoOpening, ReadableLabel;
    var key, body := Key(name, items), Joined(Printable(items));
    JoinedIsNotEmpty(Printable(items));
    OpeningOfKey(name, body);
    DictMeans(items, items[0]);
    var at := MatchStart(key);
    assert at.Some? && |key[..at.value]| == |name|;
    var pieces := Split(body, ',');
    SplitPieces(body, ',');
    CollectedMeans(ReadLabels(pieces));
    forall l | l in items ensures ReadableLabel(l) {
      DictMeans(items, l);
      var i :| 0 <= i < |pieces| && ReadLabel(pieces[i]) == l;
      ReadLabelIsReadable(pieces[i]);
    }
  }

  /** So readable names and labels have the same key only when they are the same, in any insertion order. */
  lemma KeysAreUnique(name: string, items: seq<Label>, other: string, others: seq<Label>)
    requires IsDict(items) && IsDict(others) && Readable(name, items) && Readable(other, others)
    ensures Key(name, items) == Key(other, others) <==> name == other && Collected(items) == Collected(others)
  {
    hide Collected, Sorted, Joined, Parse, IsDict, Readable;
    RoundTripIff(name, items);
    RoundTripIff(other, others);
    if name == other && Collected(items) == Collected(others) {
      SortedIsCanonical(items, others);
      SameDictionary(items, others);
      assert |multiset(items)| == |items| && |multiset(others)| == |others|;
    }
  }

  /** Outside them two label sets can share a key: a comma in a value reads as a second label. */
  lemma UnreadableKeysCollide()
    ensures Key("m", [Label("a", "1,b=2")]) == Key("m", [Label("a", "1"), Label("b", "2")])
    ensures !Readable("m", [Label("a", "1,b=2")])
  {
    var l := Label("a", "1,b=2");
    assert Sorted([l]) == [l];
    assert Sorted([Label("b", "2")]) == [Label("b", "2")];
    assert Sorted([Label("a", "1"), Label("b", "2")]) == [Label("a", "1"), Label("b", "2")];
    assert Printed(l) == "a=1,b=2";
    assert l.value[1] == ',';
    assert l in [l];
  }

  // ---------- order and white space, spelled out ----------

  /** The first difference, with the smaller character in x. */
  predicate SmallerAt(x: string, y: string, i: int) {
    0 <= i < |x| && i < |y| && x[..i] == y[..i] && x[i] < y[i]
  }

  /** One string comes before another when it is a prefix of it or has the smaller character where they
      first differ. */
  lemma {:induction false} OrderIsByFirstDifference(x: string, y: string)
    ensures AtMost(x, y) <==> x <= y || exists i :: SmallerAt(x, y, i)
    decreases |x|
  {
    if x != "" && y != "" {
      if x[0] == y[0] {
        hide SmallerAt;
        OrderIsByFirstDifference(x[1..], y[1..]);
        PrefixOfTail(x, y);
        if exists i :: SmallerAt(x, y, i) {
          var i :| SmallerAt(x, y, i);
          SmallerInTail(x, y, i);
          assert SmallerAt(x[1..], y[1..], i - 1);
        }
        if exists i :: SmallerAt(x[1..], y[1..], i) {
          var i :| SmallerAt(x[1..], y[1..], i);
          SmallerInTail(x, y, i + 1);
          assert SmallerAt(x, y, i + 1);
        }
      } else {
        assert SmallerAt(x, y, 0) == (x[0] < y[0]);
        forall i | 0 < i < |x| && i < |y| ensures !SmallerAt(x, y, i) {
          assert x[..i][0] != y[..i][0];
        }
      }
    }
  }

  lemma SmallerInTail(x: string, y: string, i: int)
    requires x != "" && y != "" && x[0] == y[0]
    ensures SmallerAt(x[1..], y[1..], i - 1) == SmallerAt(x, y, i)
  {
    if 0 < i < |x| && i < |y| {
      assert x[..i] == [x[0]] + x[1..][..i - 1] && y[..i] == [y[0]] + y[1..][..i - 1];
      assert x[1..][..i - 1] == x[..i][1..] && y[1..][..i - 1] == y[..i][1..];
    }
  }

  lemma PrefixOfTail(x: string, y: string)
    requires x != "" && y != "" && x[0] == y[0]
    ensures x <= y <==> x[1..] <= y[1..]
  {
    assert x == [x[0]] + x[1..] && y == [y[0]] + y[1..];
  }

  const WHITE_SPACE :=
    "\t\n\U{0B}\U{0C}\r\U{1C}\U{1D}\U{1E}\U{1F} \U{85}\U{A0}\U{1680}"
    + "\U{2000}\U{2001}\U{2002}\U{2003}\U{2004}\U{2005}\U{2006}\U{2007}\U{2008}\U{2009}\U{200A}"
    + "\U{2028}\U{2029}\U{202F}\U{205F}\U{3000}"

  /** Stripping removes exactly these characters from both ends. */
  lemma WhiteSpaceIs(c: char)
    ensures IsSpace(c) <==> c in WHITE_SPACE
  {
  }

  /** What is left after stripping is what was between. */
  lemma {:induction false} StripKeepsTheMiddle(before: string, middle: string, after: string)
    requires (forall c | c in before + after :: c in WHITE_SPACE) && Clean(middle) && middle != ""
    ensures Strip(before + middle + after) == middle
    decreases |before| + |after|
  {
    hide IsSpace;
    var s := before + middle + after;
    if before != "" {
      WhiteSpaceIs(before[0]);
      assert before[0] in before + after;
      assert s[1..] == before[1..] + middle + after;
      assert forall c | c in before[1..] + after :: c in before + after;
      StripKeepsTheMiddle(before[1..], middle, after);
    } else if after != "" {
      assert s == middle + after;
      assert StripLeft(s) == s;
      var n := |after| - 1;
      WhiteSpaceIs(after[n]);
      assert after[n] in before + after;
      assert s[..|s| - 1] == middle + after[..n];
      assert forall c | c in before + after[..n] :: c in before + after;
      StripKeepsTheMiddle(before, middle, after[..n]);
      assert before + middle + after[..n] == middle + after[..n];
      assert StripLeft(middle + after[..n]) == middle + after[..n];
    } else {
      assert s == middle;
      StripCleans(middle);
    }
  }
}
