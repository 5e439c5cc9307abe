/** execution/exchange_response_normalizer.py: how the numbers of a response are found in its payload. */
module ResponsePayload {
  import opened Common
  import opened Execution

  /** A payload value; a text comes with the number it reads as, if it does. */
  datatype Value =
    | Number(value: real)
    | Text(text: string, number: Option<real>)
    | Dict(fields: map<string, Value>)
    | List(items: seq<Value>)
    | Nothing

  type Payload = map<string, Value>

  function Get(p: Payload, key: string): Value {
    if key in p then p[key] else Nothing
  }

  function Read(v: Value): Option<real> {
    match v
    case Number(value) => Some(value)
    case Text(_, number) => number
    case _ => None
  }

  const FILLED_KEYS := ["filled", "filled_quantity", "executedQty", "amount_filled"]

  const AVERAGE_KEYS := ["average", "avgPrice", "average_fill_price", "price"]

  /** The first key that reads as a number decides. */
  predicate FirstReadable(p: Payload, keys: seq<string>, default: real, found: real) {
    || (found == default && forall i | 0 <= i < |keys| :: Read(Get(p, keys[i])).None?)
    || exists i | 0 <= i < |keys| ::
         Read(Get(p, keys[i])) == Some(found) && forall j | 0 <= j < i :: Read(Get(p, keys[j])).None?
  }

  method ExtractFloat(p: Payload, keys: seq<string>, default: real) returns (found: real)
    ensures FirstReadable(p, keys, default, found)
  {
    for i := 0 to |keys|
      invariant forall j | 0 <= j < i :: Read(Get(p, keys[j])).None?
    {
      var number := Read(Get(p, keys[i]));
      if number.Some? { return number.value; }
    }
    return default;
  }

  /** Only one number can be the first readable one. */
  lemma FirstReadableIsUnique(p: Payload, keys: seq<string>, default: real, x: real, y: real)
    requires FirstReadable(p, keys, default, x) && FirstReadable(p, keys, default, y)
    ensures x == y
  {
    if exists i | 0 <= i < |keys| :: Read(Get(p, keys[i])).Some? {
      var i :| 0 <= i < |keys| && Read(Get(p, keys[i])) == Some(x)
            && forall j | 0 <= j < i :: Read(Get(p, keys[j])).None?;
      var k :| 0 <= k < |keys| && Read(Get(p, keys[k])) == Some(y)
            && forall j | 0 <= j < k :: Read(Get(p, keys[j])).None?;
      assert i == k;
    }
  }

  // ---------- fees ----------

  function FieldOf(v: Value, key: string): Value {
    if v.Dict? then Get(v.fields, key) else Nothing
  }

  function ItemsOf(v: Value): seq<Value> {
    if v.List? then v.items else []
  }

  /** What each dictionary of a list holds under a key. */
  function FieldsOf(items: seq<Value>, key: string): (r: seq<Value>)
    ensures |r| == |items|
  {
    seq(|items|, i requires 0 <= i < |items| => FieldOf(items[i], key))
  }

  /** Every place a fee can stand in: the fee or its cost, the costs of all fees, the commissions of all
      fills and of the order itself. */
  function FeeEntries(p: Payload): seq<Value> {
    var fee, info := Get(p, "fee"), Get(p, "info");
    [if fee.Dict? then FieldOf(fee, "cost") else fee]
      + FieldsOf(ItemsOf(Get(p, "fees")), "cost")
      + (if info.Dict?
         then FieldsOf(ItemsOf(FieldOf(info, "fills")), "commission") + [FieldOf(info, "commission")] else [])
  }

  /** The sum of the entries that read as numbers. */
  function SumRead(entries: seq<Value>): real {
    if entries == [] then 0.0
    else
      var last := Read(entries[|entries| - 1]);
      SumRead(entries[..|entries| - 1]) + (if last.Some? then last.value else 0.0)
  }

  lemma {:induction false} SumReadJoins(x: seq<Value>, y: seq<Value>)
    ensures SumRead(x + y) == SumRead(x) + SumRead(y)
    decreases |y|
  {
    if y == [] {
      assert x + y == x;
    } else {
      assert (x + y)[..|x + y| - 1] == x + y[..|y| - 1];
      SumReadJoins(x, y[..|y| - 1]);
    }
  }

  lemma SumOfOne(v: Value)
    ensures SumRead([v]) == if Read(v).Some? then Read(v).value else 0.0
  {
    assert [v][..0] == [];
  }

  method AddFeeValue(total: real, v: Value) returns (sum: real)
    ensures sum == total + SumRead([v])
  {
    SumOfOne(v);
    var number := Read(v);
    sum := if number.Some? then total + number.value else total;
  }

  method AddFields(total: real, items: seq<Value>, key: string) returns (sum: real)
    ensures sum == total + SumRead(FieldsOf(items, key))
  {
    sum := total;
    ghost var fields := FieldsOf(items, key);
    for i := 0 to |items|
      invariant sum == total + SumRead(fields[..i])
    {
      assert fields[..i + 1] == fields[..i] + [fields[i]];
      SumReadJoins(fields[..i], [fields[i]]);
      SumOfOne(Nothing);
      if items[i].Dict? {
        sum := AddFeeValue(sum, Get(items[i].fields, key));
      }
    }
    assert fields[..|items|] == fields;
  }

  method ExtractFee(p: Payload) returns (total: real)
    ensures total == SumRead(FeeEntries(p))
  {
    hide SumRead;
    var fee, info := Get(p, "fee"), Get(p, "info");
    ghost var first := if fee.Dict? then FieldOf(fee, "cost") else fee;
    if fee.Dict? {
      total := AddFeeValue(0.0, Get(fee.fields, "cost"));
    } else {
      total := AddFeeValue(0.0, fee);
    }
    ghost var costs := FieldsOf(ItemsOf(Get(p, "fees")), "cost");
    total := AddFields(total, ItemsOf(Get(p, "fees")), "cost");
    SumReadJoins([first], costs);
    if info.Dict? {
      ghost var commissions := FieldsOf(ItemsOf(FieldOf(info, "fills")), "commission");
      total := AddFields(total, ItemsOf(Get(info.fields, "fills")), "commission");
      total := AddFeeValue(total, Get(info.fields, "commission"));
      SumReadJoins(commissions, [FieldOf(info, "commission")]);
      SumReadJoins([first] + costs, commissions + [FieldOf(info, "commission")]);
    } else {
      assert [first] + costs + [] == [first] + costs;
    }
  }

  // ---------- status ----------

  function LowerChar(c: char): char {
    if 'A' <= c <= 'Z' then (c as int - 'A' as int + 'a' as int) as char else c
  }

  /** Every status the normalizer knows is spelled with letters whose only capitals are these. */
  function Lower(s: string): (r: string)
    ensures |r| == |s| && forall i | 0 <= i < |s| :: r[i] == LowerChar(s[i])
  {
    seq(|s|, i requires 0 <= i < |s| => LowerChar(s[i]))
  }

  /** A missing status is "submitted"; what is not a text prints as something the normalizer does not know. */
  function StatusText(p: Payload): string {
    if "status" !in p then "submitted"
    else match p["status"]
      case Text(text, _) => Lower(text)
      case _ => ""
  }

  /** The case of a status does not matter. */
  lemma StatusIgnoresCase(p: Payload, x: string, y: string, n: Option<real>, m: Option<real>)
    requires Lower(x) == Lower(y)
    ensures Mapped(StatusText(p["status" := Text(x, n)])) == Mapped(StatusText(p["status" := Text(y, m)]))
  {
  }

  /** The whole of normalize: the report of the response the payload spells out. A response that is not a
      dictionary is an empty payload. */
  method NormalizePayload(o: OrderState, p: Payload) returns (report: Report)
    ensures exists filled, average ::
      && FirstReadable(p, FILLED_KEYS, 0.0, filled) && FirstReadable(p, AVERAGE_KEYS, 0.0, average)
      && report == ReportOf(o, Response(StatusText(p), filled, average, SumRead(FeeEntries(p))))
  {
    hide FirstReadable, SumRead;
    var filled := ExtractFloat(p, FILLED_KEYS, 0.0);
    var average := ExtractFloat(p, AVERAGE_KEYS, 0.0);
    var fee := ExtractFee(p);
    report := Normalize(o, Response(StatusText(p), filled, average, fee));
  }

  // ---------- where fees are found ----------

  /** One more fee in the list of fees adds its cost, one more fill in the order's info its commission, and a
      plain fee, its cost, or the order's commission is counted where there was none. */
  lemma FeesAddUp(p: Payload, x: real)
    ensures var one := Dict(map["cost" := Number(x)]);
            SumRead(FeeEntries(p["fees" := List(ItemsOf(Get(p, "fees")) + [one])])) == SumRead(FeeEntries(p)) + x
    ensures "fee" !in p ==>
        && SumRead(FeeEntries(p["fee" := Number(x)])) == SumRead(FeeEntries(p)) + x
        && SumRead(FeeEntries(p["fee" := Dict(map["cost" := Number(x)])])) == SumRead(FeeEntries(p)) + x
    ensures "info" !in p ==>
        && SumRead(FeeEntries(p["info" := Dict(map["commission" := Number(x)])])) == SumRead(FeeEntries(p)) + x
        && SumRead(FeeEntries(p["info" := Dict(map["fills" := List([Dict(map["commission" := Number(x)])])])]))
             == SumRead(FeeEntries(p)) + x
    ensures SumRead(FeeEntries(map[])) == 0.0
  {
    hide SumRead;
    FeePlaces(p, x);
    FeeElsewhere(p, x);
    assert FeeEntries(map[]) == [Nothing];
    SumOfOne(Nothing);
  }

  lemma FeePlaces(p: Payload, x: real)
    ensures var one := Dict(map["cost" := Number(x)]);
            SumRead(FeeEntries(p["fees" := List(ItemsOf(Get(p, "fees")) + [one])])) == SumRead(FeeEntries(p)) + x
    ensures "fee" !in p ==>
        && SumRead(FeeEntries(p["fee" := Number(x)])) == SumRead(FeeEntries(p)) + x
        && SumRead(FeeEntries(p["fee" := Dict(map["cost" := Number(x)])])) == SumRead(FeeEntries(p)) + x
  {
    hide SumRead;
    var one := Dict(map["cost" := Number(x)]);
    var fee, info := Get(p, "fee"), Get(p, "info");
    var head := [if fee.Dict? then FieldOf(fee, "cost") else fee];
    var costs := FieldsOf(ItemsOf(Get(p, "fees")), "cost");
    var rest := if info.Dict?
                then FieldsOf(ItemsOf(FieldOf(info, "fills")), "commission") + [FieldOf(info, "commission")] else [];
    var more := p["fees" := List(ItemsOf(Get(p, "fees")) + [one])];
    assert FieldsOf(ItemsOf(Get(more, "fees")), "cost") == costs + [Number(x)];
    assert FeeEntries(more) == head + (costs + [Number(x)]) + rest;
    assert FeeEntries(p) == head + costs + rest;
    Joins(head, costs, rest);
    Joins(head, costs + [Number(x)], rest);
    SumReadJoins(costs, [Number(x)]);
    SumOfOne(Number(x));
    SumOfOne(Nothing);
    if "fee" !in p {
      assert FeeEntries(p["fee" := Number(x)]) == [Number(x)] + costs + rest;
      assert FeeEntries(p["fee" := one]) == [Number(x)] + costs + rest;
      Joins([Number(x)], costs, rest);
    }
  }

  lemma Joins(x: seq<Value>, y: seq<Value>, z: seq<Value>)
    ensures SumRead(x + y + z) == SumRead(x) + SumRead(y) + SumRead(z)
  {
    SumReadJoins(x, y);
    SumReadJoins(x + y, z);
  }

  lemma FeeElsewhere(p: Payload, x: real)
    ensures "info" !in p ==>
        && SumRead(FeeEntries(p["info" := Dict(map["commission" := Number(x)])])) == SumRead(FeeEntries(p)) + x
        && SumRead(FeeEntries(p["info" := Dict(map["fills" := List([Dict(map["commission" := Number(x)])])])]))
             == SumRead(FeeEntries(p)) + x
  {
    hide SumRead;
    if "info" !in p {
      var before := FeeEntries(p);
      var plain := Dict(map["commission" := Number(x)]);
      var nested := Dict(map["fills" := List([plain])]);
      assert FeeEntries(p["info" := plain]) == before + [Number(x)];
      assert FieldsOf([plain], "commission") == [Number(x)];
      assert FeeEntries(p["info" := nested]) == before + [Number(x), Nothing];
      SumReadJoins(before, [Number(x)]);
      assert [Number(x), Nothing] == [Number(x)] + [Nothing];
      SumReadJoins([Number(x)], [Nothing]);
      SumReadJoins(before, [Number(x), Nothing]);
      SumOfOne(Number(x));
      SumOfOne(Nothing);
    }
  }

  /** A response that is no dictionary, or an empty one, leaves the order submitted and unfilled. */
  lemma SilentResponseIsSubmitted(o: OrderState)
    requires o.quantity > 0.0
    ensures ReportOf(o, Response(StatusText(map[]), 0.0, 0.0, SumRead(FeeEntries(map[])))).status == Submitted
    ensures FirstReadable(map[], FILLED_KEYS, 0.0, 0.0) && FirstReadable(map[], AVERAGE_KEYS, 0.0, 0.0)
  {
    hide SumRead;
  }

  /** Each key that can hold the filled quantity, or the average price, does, as a number or as a text that
      reads as one; any other text is passed over. */
  lemma KeysAreRead(key: string, v: Value, x: real)
    requires v == Number(x) || (v.Text? && v.number == Some(x)) || (v.Text? && v.number.None? && x == 0.0)
    ensures key in {"filled", "filled_quantity", "executedQty", "amount_filled"} ==>
        FirstReadable(map[key := v], FILLED_KEYS, 0.0, x)
    ensures key in {"average", "avgPrice", "average_fill_price", "price"} ==>
        FirstReadable(map[key := v], AVERAGE_KEYS, 0.0, x)
  {
    var p := map[key := v];
    assert FILLED_KEYS == ["filled", "filled_quantity", "executedQty", "amount_filled"];
    assert AVERAGE_KEYS == ["average", "avgPrice", "average_fill_price", "price"];
    if key in FILLED_KEYS {
      KeyIsRead(p, FILLED_KEYS, key, x);
    }
    if key in AVERAGE_KEYS {
      KeyIsRead(p, AVERAGE_KEYS, key, x);
    }
  }

  lemma KeyIsRead(p: Payload, keys: seq<string>, key: string, x: real)
    requires key in keys && p.Keys == {key}
    requires Read(p[key]) == Some(x) || (Read(p[key]).None? && x == 0.0)
    ensures FirstReadable(p, keys, 0.0, x)
  {
    var i := FirstIndex(keys, key);
    if Read(p[key]).Some? {
      assert Read(Get(p, keys[i])) == Some(x);
    }
  }

  lemma {:induction false} FirstIndex(keys: seq<string>, key: string) returns (i: nat)
    requires key in keys
    ensures i < |keys| && keys[i] == key && forall j | 0 <= j < i :: keys[j] != key
    decreases |keys|
  {
    if keys[0] == key {
      i := 0;
    } else {
      i := FirstIndex(keys[1..], key);
      i := i + 1;
    }
  }
}
