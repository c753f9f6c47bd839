/**
 * The line items of create_rechnung: every form key items[<i>][<field>] is
 * split into an integer index and a field name, the values are grouped by
 * index, and the groups become line items in ascending index order, with an
 * empty or missing quantity, unit price or VAT rate read as Decimal("0").
 */
module FormItems {
  import opened Wrappers
  import opened Text
  import opened Digits
  import opened Decimals
  import opened InvoiceTotals
  import opened Sorting

  /** dict(await request.form()) as it iterates: (key, value) pairs in submission order. */
  type Entries = seq<(string, string)>

  /** The fields submitted for one index. */
  type Fields = map<string, string>

  /** What the parser raises. */
  datatype ItemsError =
    | BadIndex(key: string)                // int(parts[1]) raises ValueError
    | MissingField(key: string)            // parts[2] raises IndexError
    | BadNumber(index: int, field: string) // Decimal(...) raises InvalidOperation

  const ItemsPrefix := "items["

  predicate IsItemKey(key: string)
  {
    StartsWith(key, ItemsPrefix)
  }

  // ---------------------------------------------------------------------------
  // key.replace("]", "").split("[")
  // ---------------------------------------------------------------------------

  /** Position of the first c, or |s| when there is none. */
  function IndexOf(s: string, c: char): (k: nat)
    ensures k <= |s|
    ensures k < |s| ==> s[k] == c
    ensures forall j :: 0 <= j < k ==> s[j] != c
  {
    if s == [] || s[0] == c then 0 else 1 + IndexOf(s[1..], c)
  }

  /** s.split(c) for a one-character separator: the pieces between the separators, at least one. */
  function Split(s: string, c: char): (parts: seq<string>)
    ensures |parts| >= 1
    decreases |s|
  {
    var k := IndexOf(s, c);
    if k == |s| then [s] else [s[..k]] + Split(s[k + 1..], c)
  }

  /** The pieces of a form key: "items", the index text, then the field name and anything after it. */
  function KeyParts(key: string): seq<string>
  {
    Split(ReplaceChar(key, ']', ""), '[')
  }

  /** int(s): surrounding whitespace, an optional sign, decimal digits. */
  function PyInt(s: string): Option<int>
  {
    ParseSignedInt(Strip(s))
  }

  /** index = int(parts[1]); field = parts[2]. */
  function KeyFields(key: string): Result<(int, string), ItemsError>
    requires IsItemKey(key)
  {
    ItemKeyParts(key);
    var parts := KeyParts(key);
    match PyInt(parts[1])
    case None => Err(BadIndex(key))
    case Some(index) => if |parts| < 3 then Err(MissingField(key)) else Ok((index, parts[2]))
  }

  // ---------------------------------------------------------------------------
  // item_data: the fields by index, and the order the indices were first seen.
  // ---------------------------------------------------------------------------

  /** item_data as an insertion-ordered dictionary: its entries and its key order. */
  datatype Groups = Groups(fields: map<int, Fields>, order: seq<int>)

  predicate Distinct(s: seq<int>)
  {
    forall j, k :: 0 <= j < k < |s| ==> s[j] != s[k]
  }

  /** The key order lists every key of the dictionary once. */
  ghost predicate GroupsValid(g: Groups)
  {
    Distinct(g.order) && forall i :: i in g.order <==> i in g.fields
  }

  /** item_data[index][field] = value, opening the index's dictionary first when it is new. */
  function Store(g: Groups, index: int, field: string, value: string): (h: Groups)
    ensures GroupsValid(g) ==> GroupsValid(h)
    ensures h.fields.Keys == g.fields.Keys + {index}
  {
    var item := if index in g.fields then g.fields[index] else map[];
    Groups(g.fields[index := item[field := value]], if index in g.fields then g.order else g.order + [index])
  }

  /** Store is the loop's two assignments: open the index's dictionary when it is new, then set the field. */
  lemma StoreSteps(fields: map<int, Fields>, order: seq<int>, index: int, field: string, value: string)
    ensures index !in fields ==>
              var created := fields[index := map[]];
              Store(Groups(fields, order), index, field, value) ==
                Groups(created[index := created[index][field := value]], order + [index])
    ensures index in fields ==>
              Store(Groups(fields, order), index, field, value) == Groups(fields[index := fields[index][field := value]], order)
  {
  }

  /** One pass of the grouping loop: other keys are skipped, an item key is stored or raises. */
  function GroupStep(g: Groups, entry: (string, string)): (r: Result<Groups, ItemsError>)
    ensures GroupsValid(g) && r.Ok? ==> GroupsValid(r.value)
  {
    var (key, value) := entry;
    if !IsItemKey(key) then Ok(g)
    else
      match KeyFields(key)
      case Err(e) => Err(e)
      case Ok((index, field)) => Ok(Store(g, index, field, value))
  }

  /** The pass of an item key, spelled out: raise on a bad index or a missing field, else store. */
  lemma ItemStep(g: Groups, key: string, value: string)
    requires IsItemKey(key)
    ensures |KeyParts(key)| >= 2
    ensures var parts := KeyParts(key);
            GroupStep(g, (key, value)) ==
              if PyInt(parts[1]).None? then Err(BadIndex(key))
              else if |parts| < 3 then Err(MissingField(key))
              else Ok(Store(g, PyInt(parts[1]).value, parts[2], value))
  {
    ItemKeyParts(key);
  }

  /** The grouping loop after the given entries, or the error of the first malformed item key. */
  function Grouped(entries: Entries): (r: Result<Groups, ItemsError>)
    ensures r.Ok? ==> GroupsValid(r.value)
    decreases |entries|
  {
    if entries == [] then Ok(Groups(map[], []))
    else
      match Grouped(entries[..|entries| - 1])
      case Err(e) => Err(e)
      case Ok(g) => GroupStep(g, entries[|entries| - 1])
  }

  // ---------------------------------------------------------------------------
  // The items list, in sorted(item_data.keys()) order.
  // ---------------------------------------------------------------------------

  /** Integer indices sort by their value. */
  function IndexKey(i: int): real
  {
    i as real
  }

  function SortedIndices(g: Groups): seq<int>
  {
    SortBy(IndexKey, g.order)
  }

  /** item.get(name) or '0': the text handed to Decimal. */
  function FieldOrZero(fields: Fields, name: string): string
  {
    if name in fields && fields[name] != "" then fields[name] else "0"
  }

  /** item.get(name): present or absent. */
  function Lookup(fields: Fields, name: string): Option<string>
  {
    if name in fields then Some(fields[name]) else None
  }

  /** One group as a line item: quantity, unit_price and vat_rate become Decimals, in that order. */
  function ToItem(index: int, fields: Fields): Result<LineItem, ItemsError>
  {
    var quantity := Parse(FieldOrZero(fields, "quantity"));
    var unitPrice := Parse(FieldOrZero(fields, "unit_price"));
    var vatRate := Parse(FieldOrZero(fields, "vat_rate"));
    if quantity.None? then Err(BadNumber(index, "quantity"))
    else if unitPrice.None? then Err(BadNumber(index, "unit_price"))
    else if vatRate.None? then Err(BadNumber(index, "vat_rate"))
    else Ok(LineItem(Lookup(fields, "description"), quantity, unitPrice, vatRate))
  }

  /** The items for the given indices, in that order, or the first conversion error. */
  function ItemsFrom(fields: map<int, Fields>, indices: seq<int>): (r: Result<seq<LineItem>, ItemsError>)
    requires forall k :: 0 <= k < |indices| ==> indices[k] in fields
    ensures r.Ok? ==> |r.value| == |indices|
    decreases |indices|
  {
    if indices == [] then Ok([])
    else
      match ItemsFrom(fields, indices[..|indices| - 1])
      case Err(e) => Err(e)
      case Ok(items) =>
        var index := indices[|indices| - 1];
        match ToItem(index, fields[index])
        case Err(e) => Err(e)
        case Ok(item) => Ok(items + [item])
  }

  /** The parsed items of a submitted form. */
  function ItemsOf(entries: Entries): Result<seq<LineItem>, ItemsError>
  {
    match Grouped(entries)
    case Err(e) => Err(e)
    case Ok(g) =>
      SortedIndicesOrder(g);
      ItemsFrom(g.fields, SortedIndices(g))
  }

  // ---------------------------------------------------------------------------
  // The two loops of create_rechnung.
  // ---------------------------------------------------------------------------

  /** for key, value in form_data_dict.items(): if key.startswith("items["): ... */
  method GroupItems(entries: Entries) returns (r: Result<Groups, ItemsError>)
    ensures r == Grouped(entries)
  {
    var itemData: map<int, Fields> := map[];
    var order: seq<int> := [];
    var n := 0;
    while n < |entries|
      invariant n <= |entries|
      invariant Grouped(entries[..n]) == Ok(Groups(itemData, order))
    {
      GroupedSnoc(entries, n);
      var (key, value) := entries[n];
      if IsItemKey(key) {
        ghost var g := Groups(itemData, order);
        ItemStep(g, key, value);
        var parts := KeyParts(key);
        var index := PyInt(parts[1]);
        if index.None? {
          GroupedErrPersists(entries, n + 1);
          return Err(BadIndex(key));
        }
        if |parts| < 3 {
          GroupedErrPersists(entries, n + 1);
          return Err(MissingField(key));
        }
        var field := parts[2];
        StoreSteps(itemData, order, index.value, field, value);
        if index.value !in itemData {
          itemData := itemData[index.value := map[]];
          order := order + [index.value];
        }
        itemData := itemData[index.value := itemData[index.value][field := value]];
      }
      n := n + 1;
    }
    assert entries[..n] == entries;
    r := Ok(Groups(itemData, order));
  }

  /**
   * The items list of create_rechnung: the groups in sorted(item_data.keys())
   * order, each with its three numbers converted with Decimal(... or '0').
   */
  method ParseFormItems(entries: Entries) returns (r: Result<seq<LineItem>, ItemsError>)
    ensures r == ItemsOf(entries)
  {
    var grouped := GroupItems(entries);
    if grouped.Err? {
      return Err(grouped.error);
    }
    var g := grouped.value;
    var sorted := SortBy(IndexKey, g.order);
    assert sorted == SortedIndices(g);
    SortedIndicesOrder(g);
    var items: seq<LineItem> := [];
    var j := 0;
    while j < |sorted|
      invariant j <= |sorted|
      invariant ItemsFrom(g.fields, sorted[..j]) == Ok(items)
    {
      ItemsFromSnoc(g.fields, sorted, j);
      var index := sorted[j];
      var item := g.fields[index];
      var quantity := Parse(FieldOrZero(item, "quantity"));
      if quantity.None? {
        ItemsFromErrPersists(g.fields, sorted, j + 1);
        return Err(BadNumber(index, "quantity"));
      }
      var unitPrice := Parse(FieldOrZero(item, "unit_price"));
      if unitPrice.None? {
        ItemsFromErrPersists(g.fields, sorted, j + 1);
        return Err(BadNumber(index, "unit_price"));
      }
      var vatRate := Parse(FieldOrZero(item, "vat_rate"));
      if vatRate.None? {
        ItemsFromErrPersists(g.fields, sorted, j + 1);
        return Err(BadNumber(index, "vat_rate"));
      }
      assert ToItem(index, item) == Ok(LineItem(Lookup(item, "description"), quantity, unitPrice, vatRate));
      items := items + [LineItem(Lookup(item, "description"), quantity, unitPrice, vatRate)];
      j := j + 1;
    }
    assert sorted[..j] == sorted;
    r := Ok(items);
  }

  // ---------------------------------------------------------------------------
  // Splitting keys.
  // ---------------------------------------------------------------------------

  lemma {:induction false} ReplaceCharConcat(a: string, b: string, c: char, r: string)
    ensures ReplaceChar(a + b, c, r) == ReplaceChar(a, c, r) + ReplaceChar(b, c, r)
    decreases |a|
  {
    if a == [] {
      assert a + b == b;
    } else {
      var head := if a[0] == c then r else [a[0]];
      assert (a + b)[0] == a[0];
      assert (a + b)[1..] == a[1..] + b;
      ReplaceCharConcat(a[1..], b, c, r);
      calc {
        ReplaceChar(a + b, c, r);
        head + ReplaceChar(a[1..] + b, c, r);
        head + (ReplaceChar(a[1..], c, r) + ReplaceChar(b, c, r));
        (head + ReplaceChar(a[1..], c, r)) + ReplaceChar(b, c, r);
      }
    }
  }

  /** A piece without the separator, then the separator: the piece comes first, the rest is split on. */
  lemma SplitAfter(a: string, b: string, c: char)
    requires c !in a
    ensures Split(a + [c] + b, c) == [a] + Split(b, c)
  {
    var s := a + [c] + b;
    assert IndexOf(s, c) == |a| by {
      assert s[|a|] == c;
      assert forall j :: 0 <= j < |a| ==> s[j] == a[j];
    }
    assert s[..|a|] == a;
    assert s[|a| + 1..] == b;
  }

  lemma SplitWhole(a: string, c: char)
    requires c !in a
    ensures Split(a, c) == [a]
  {
    assert forall j :: 0 <= j < |a| ==> a[j] != c;
  }

  lemma JoinCons(sep: string, a: string, rest: seq<string>)
    requires rest != []
    ensures Join(sep, [a] + rest) == a + sep + Join(sep, rest)
    decreases |rest|
  {
    var parts := [a] + rest;
    if |rest| > 1 {
      assert parts[..|parts| - 1] == [a] + rest[..|rest| - 1];
      JoinCons(sep, a, rest[..|rest| - 1]);
    } else {
      assert parts[..|parts| - 1] == [a];
    }
  }

  /** Splitting loses nothing: joining the pieces with the separator gives the string back. */
  lemma {:induction false} SplitJoin(s: string, c: char)
    ensures Join([c], Split(s, c)) == s
    ensures forall k :: 0 <= k < |Split(s, c)| ==> c !in Split(s, c)[k]
    decreases |s|
  {
    var k := IndexOf(s, c);
    if k < |s| {
      var rest := s[k + 1..];
      SplitJoin(rest, c);
      JoinCons([c], s[..k], Split(rest, c));
      assert s == s[..k] + [c] + rest;
    }
  }

  /** An item key always has an index piece after "items". */
  lemma ItemKeyParts(key: string)
    requires IsItemKey(key)
    ensures |KeyParts(key)| >= 2 && KeyParts(key)[0] == "items"
  {
    var rest := key[|ItemsPrefix|..];
    assert key == ItemsPrefix + rest;
    ReplaceCharConcat(ItemsPrefix, rest, ']', "");
    assert ItemsPrefix == "items" + ['['];
    ReplaceCharConcat("items", ['['], ']', "");
    assert ReplaceChar("items", ']', "") == "items";
    assert ReplaceChar(['['], ']', "") == ['['];
    SplitAfter("items", ReplaceChar(rest, ']', ""), '[');
  }

  /** The key the invoice form writes for field f of item i. */
  function ItemKey(i: nat, f: string): string
  {
    ItemsPrefix + NatToDigits(i) + "][" + f + "]"
  }

  lemma DigitsHaveNoSpace(d: string)
    requires d != [] && AllDigits(d)
    ensures Strip(d) == d
  {
    assert !IsSpace(d[0]) && !IsSpace(d[|d| - 1]);
    assert StripLeft(d) == d;
  }

  lemma DigitsPiece(d: string, c: char)
    requires AllDigits(d) && !('0' <= c <= '9')
    ensures c !in d && ReplaceChar(d, ']', "") == d
  {
    assert forall j :: 0 <= j < |d| ==> d[j] != c && d[j] != ']';
  }

  lemma NoCloseBracket(s: string)
    requires ']' !in s
    ensures ReplaceChar(s, ']', "") == s
  {
    assert forall j :: 0 <= j < |s| ==> s[j] != ']';
  }

  /** Removing the closing brackets of a key leaves its prefix, the index text, "[" and the field. */
  lemma ItemKeyFlat(prefix: string, d: string, f: string)
    requires ']' !in prefix && ']' !in d && ']' !in f
    ensures ReplaceChar(prefix + d + "][" + f + "]", ']', "") == prefix + d + (['['] + f)
  {
    var front := prefix + d;
    var field := ['['] + f;
    var rest := "]" + (field + "]");
    assert prefix + d + "][" + f + "]" == front + rest;
    assert ']' !in front && ']' !in field;
    NoCloseBracket(front);
    BracketedField(field);
    ReplaceCharConcat(front, rest, ']', "");
  }

  /** The brackets around a field name vanish. */
  lemma BracketedField(field: string)
    requires ']' !in field
    ensures ReplaceChar("]" + (field + "]"), ']', "") == field
  {
    var close := "]";
    NoCloseBracket(field);
    assert ReplaceChar(close, ']', "") == "";
    ReplaceCharConcat(field, close, ']', "");
    assert field + "" == field;
    ReplaceCharConcat(close, field + close, ']', "");
    assert "" + field == field;
  }

  /** Splitting the flattened key on "[" gives "items", the index text and the field. */
  lemma ItemKeySplit(d: string, f: string)
    requires '[' !in d && '[' !in f
    ensures Split("items" + ['['] + (d + ['['] + f), '[') == ["items", d, f]
  {
    SplitAfter("items", d + ['['] + f, '[');
    SplitAfter(d, f, '[');
    SplitWhole(f, '[');
  }

  /** int() reads back the decimal notation of a natural number. */
  lemma PyIntDigits(i: nat)
    ensures PyInt(NatToDigits(i)) == Some(i as int)
  {
    var d := NatToDigits(i);
    DigitsHaveNoSpace(d);
    NatToDigitsRoundTrip(i);
    assert d[0] != '+' && d[0] != '-';
  }

  /** The pieces of a written key are "items", the index's digits and the field. */
  lemma ItemKeyPieces(i: nat, f: string)
    requires '[' !in f && ']' !in f
    ensures KeyParts(ItemKey(i, f)) == ["items", NatToDigits(i), f]
  {
    var d := NatToDigits(i);
    assert ItemKey(i, f) == ItemsPrefix + d + "][" + f + "]";
    DigitsPiece(d, '[');
    ItemKeyFlat(ItemsPrefix, d, f);
    assert ItemsPrefix + d + (['['] + f) == "items" + ['['] + (d + ['['] + f);
    ItemKeySplit(d, f);
  }

  /** The parser reads back the index and the field of every key the form writes. */
  lemma ItemKeyRoundTrip(i: nat, f: string)
    requires '[' !in f && ']' !in f
    ensures IsItemKey(ItemKey(i, f)) && KeyFields(ItemKey(i, f)) == Ok((i as int, f))
  {
    var key := ItemKey(i, f);
    assert key == ItemsPrefix + (NatToDigits(i) + "][" + f + "]");
    assert IsItemKey(key);
    ItemKeyPieces(i, f);
    PyIntDigits(i);
  }

  // ---------------------------------------------------------------------------
  // What the grouping keeps.
  // ---------------------------------------------------------------------------

  /** Once a key fails, the loop has raised: later entries change nothing. */
  lemma {:induction false} GroupedErrPersists(entries: Entries, n: nat)
    requires n <= |entries| && Grouped(entries[..n]).Err?
    ensures Grouped(entries) == Grouped(entries[..n])
    decreases |entries| - n
  {
    if n < |entries| {
      var init := entries[..|entries| - 1];
      assert init[..n] == entries[..n];
      GroupedErrPersists(init, n);
    } else {
      assert entries[..n] == entries;
    }
  }

  /** One more entry is one more pass of the loop. */
  lemma GroupedSnoc(entries: Entries, n: nat)
    requires n < |entries| && Grouped(entries[..n]).Ok?
    ensures Grouped(entries[..n + 1]) == GroupStep(Grouped(entries[..n]).value, entries[n])
  {
    assert entries[..n + 1][..n] == entries[..n];
  }

  /** The entries whose key starts with "items[". */
  function ItemEntries(entries: Entries): (kept: Entries)
    ensures |kept| <= |entries|
  {
    if entries == [] then []
    else ItemEntries(entries[..|entries| - 1]) + (if IsItemKey(entries[|entries| - 1].0) then [entries[|entries| - 1]] else [])
  }

  /** Only the item keys matter: dropping every other form field groups the same way. */
  lemma {:induction false} OnlyItemKeysMatter(entries: Entries)
    ensures Grouped(entries) == Grouped(ItemEntries(entries))
    decreases |entries|
  {
    if entries != [] {
      var init := entries[..|entries| - 1];
      var last := entries[|entries| - 1];
      OnlyItemKeysMatter(init);
      if IsItemKey(last.0) {
        var kept := ItemEntries(init) + [last];
        assert ItemEntries(entries) == kept;
        assert kept[..|kept| - 1] == ItemEntries(init);
        assert kept[|kept| - 1] == last;
      } else {
        assert ItemEntries(entries) == ItemEntries(init);
      }
    }
  }


  /** Storing a value sets its slot and leaves every other slot as it was. */
  lemma StoreSlot(g: Groups, index: int, field: string, value: string, i: int, f: string)
    ensures var h := Store(g, index, field, value).fields;
            i in h && f in h[i] <==> (i == index && f == field) || (i in g.fields && f in g.fields[i])
    ensures var h := Store(g, index, field, value).fields;
            i in h && f in h[i] ==> h[i][f] == if i == index && f == field then value else g.fields[i][f]
  {
  }

  /** A successful loop was successful on every prefix, and its last pass is one step. */
  lemma GroupedLast(entries: Entries)
    requires entries != [] && Grouped(entries).Ok?
    ensures Grouped(entries[..|entries| - 1]).Ok?
    ensures Grouped(entries) == GroupStep(Grouped(entries[..|entries| - 1]).value, entries[|entries| - 1])
  {
  }

  /**
   * The value stored for an index and a field is the one of the last item key
   * that names them: a later key for the same slot overwrites it.
   */
  lemma {:induction false} GroupedLastWins(entries: Entries, n: nat)
    requires n < |entries| && IsItemKey(entries[n].0) && Grouped(entries).Ok?
    requires forall m :: n < m < |entries| && IsItemKey(entries[m].0) ==> KeyFields(entries[m].0) != KeyFields(entries[n].0)
    ensures KeyFields(entries[n].0).Ok?
    ensures var (i, f) := KeyFields(entries[n].0).value;
            var fields := Grouped(entries).value.fields;
            i in fields && f in fields[i] && fields[i][f] == entries[n].1
    decreases |entries|
  {
    var init := entries[..|entries| - 1];
    var last := entries[|entries| - 1];
    GroupedLast(entries);
    var g := Grouped(init).value;
    if n < |entries| - 1 {
      assert init[n] == entries[n];
      forall m | n < m < |init| && IsItemKey(init[m].0)
        ensures KeyFields(init[m].0) != KeyFields(init[n].0)
      {
        assert init[m] == entries[m];
      }
      GroupedLastWins(init, n);
      var (i, f) := KeyFields(entries[n].0).value;
      if IsItemKey(last.0) {
        var (index, field) := KeyFields(last.0).value;
        StoreSlot(g, index, field, last.1, i, f);
      }
    } else {
      var (index, field) := KeyFields(last.0).value;
      StoreSlot(g, index, field, last.1, index, field);
    }
  }

  /** Conversely, every stored value comes from an item key naming its index and field. */
  lemma {:induction false} GroupedOrigin(entries: Entries, i: int, f: string) returns (n: nat)
    requires Grouped(entries).Ok?
    requires i in Grouped(entries).value.fields && f in Grouped(entries).value.fields[i]
    ensures n < |entries| && IsItemKey(entries[n].0) && KeyFields(entries[n].0) == Ok((i, f))
    ensures Grouped(entries).value.fields[i][f] == entries[n].1
    decreases |entries|
  {
    var init := entries[..|entries| - 1];
    var last := entries[|entries| - 1];
    GroupedLast(entries);
    var g := Grouped(init).value;
    if IsItemKey(last.0) && KeyFields(last.0) == Ok((i, f)) {
      n := |entries| - 1;
      StoreSlot(g, i, f, last.1, i, f);
    } else {
      if IsItemKey(last.0) {
        var (index, field) := KeyFields(last.0).value;
        StoreSlot(g, index, field, last.1, i, f);
      }
      n := GroupedOrigin(init, i, f);
      assert init[n] == entries[n];
    }
  }

  // ---------------------------------------------------------------------------
  // What the items list is.
  // ---------------------------------------------------------------------------

  lemma {:induction false} DistinctCounts(s: seq<int>, x: int)
    requires Distinct(s)
    ensures multiset(s)[x] <= 1
    decreases |s|
  {
    if s != [] {
      var init := s[..|s| - 1];
      assert s == init + [s[|s| - 1]];
      DistinctCounts(init, x);
      if s[|s| - 1] == x {
        assert x !in init;
      }
    }
  }

  lemma TwiceCounts(s: seq<int>, j: nat, k: nat)
    requires j < k < |s| && s[j] == s[k]
    ensures multiset(s)[s[j]] >= 2
  {
    assert s == s[..k] + [s[k]] + s[k + 1..];
    assert s[j] in s[..k];
  }

  /** The sorted keys of item_data: each key once, in strictly ascending order. */
  lemma SortedIndicesOrder(g: Groups)
    requires GroupsValid(g)
    ensures var s := SortedIndices(g);
            (forall k :: 0 <= k < |s| ==> s[k] in g.fields) &&
            (forall i :: i in g.fields ==> i in s) &&
            (forall j, k :: 0 <= j < k < |s| ==> s[j] < s[k])
  {
    var s := SortedIndices(g);
    SortByCorrect(IndexKey, g.order);
    forall i ensures i in s <==> i in g.order {
      assert i in s <==> i in multiset(s);
      assert i in g.order <==> i in multiset(g.order);
    }
    forall j, k | 0 <= j < k < |s| ensures s[j] < s[k] {
      assert IndexKey(s[j]) <= IndexKey(s[k]);
      if s[j] == s[k] {
        TwiceCounts(s, j, k);
        DistinctCounts(g.order, s[j]);
        assert false;
      }
    }
  }

  /** Once a conversion fails, the loop has raised: later indices change nothing. */
  lemma {:induction false} ItemsFromErrPersists(fields: map<int, Fields>, indices: seq<int>, n: nat)
    requires forall k :: 0 <= k < |indices| ==> indices[k] in fields
    requires n <= |indices| && ItemsFrom(fields, indices[..n]).Err?
    ensures ItemsFrom(fields, indices) == ItemsFrom(fields, indices[..n])
    decreases |indices| - n
  {
    if n < |indices| {
      var init := indices[..|indices| - 1];
      assert init[..n] == indices[..n];
      ItemsFromErrPersists(fields, init, n);
    } else {
      assert indices[..n] == indices;
    }
  }

  /** One more index is one more conversion. */
  lemma ItemsFromSnoc(fields: map<int, Fields>, indices: seq<int>, j: nat)
    requires forall k :: 0 <= k < |indices| ==> indices[k] in fields
    requires j < |indices| && ItemsFrom(fields, indices[..j]).Ok?
    ensures ItemsFrom(fields, indices[..j + 1]) ==
              match ToItem(indices[j], fields[indices[j]])
              case Err(e) => Err(e)
              case Ok(item) => Ok(ItemsFrom(fields, indices[..j]).value + [item])
  {
    assert indices[..j + 1][..j] == indices[..j];
  }

  /** Each item of a successful conversion is the conversion of the fields stored under its index. */
  lemma {:induction false} ItemsFromEach(fields: map<int, Fields>, indices: seq<int>)
    requires forall k :: 0 <= k < |indices| ==> indices[k] in fields
    requires ItemsFrom(fields, indices).Ok?
    ensures forall k :: 0 <= k < |indices| ==> ToItem(indices[k], fields[indices[k]]) == Ok(ItemsFrom(fields, indices).value[k])
    decreases |indices|
  {
    if indices != [] {
      var n := |indices| - 1;
      var prefix := indices[..n];
      var items := ItemsFrom(fields, prefix).value;
      var item := ToItem(indices[n], fields[indices[n]]).value;
      ItemsFromEach(fields, prefix);
      assert ItemsFrom(fields, indices).value == items + [item];
      forall k | 0 <= k < |indices|
        ensures ToItem(indices[k], fields[indices[k]]) == Ok(ItemsFrom(fields, indices).value[k])
      {
        if k < n {
          assert prefix[k] == indices[k];
        }
      }
    }
  }

  /**
   * A successful parse yields one item per distinct index, ordered by
   * ascending index, each converted from the fields stored under its index.
   */
  lemma ItemsByIndex(entries: Entries)
    requires ItemsOf(entries).Ok?
    ensures Grouped(entries).Ok?
    ensures var g := Grouped(entries).value;
            var s := SortedIndices(g);
            var items := ItemsOf(entries).value;
            |items| == |s| &&
            (forall i :: i in g.fields ==> i in s) &&
            (forall j, k :: 0 <= j < k < |s| ==> s[j] < s[k]) &&
            (forall k :: 0 <= k < |s| ==> s[k] in g.fields && ToItem(s[k], g.fields[s[k]]) == Ok(items[k]))
  {
    var g := Grouped(entries).value;
    SortedIndicesOrder(g);
    ItemsFromEach(g.fields, SortedIndices(g));
  }

  lemma ParseZero()
    ensures Parse("0") == Some(Zero)
  {
    assert ExpIndex("0") == 1;
    assert DotIndex("0") == 1;
    assert "0"[..1] == "0";
    assert DigitsToNat("0" + "") == 0 by {
      assert "0" + "" == "0";
      assert "0"[..0] == "";
    }
  }

  /** An empty or missing number is Decimal("0"); a description is kept exactly when it was sent. */
  lemma ItemDefaults(index: int, fields: Fields)
    requires ToItem(index, fields).Ok?
    ensures var item := ToItem(index, fields).value;
            (item.description.Some? <==> "description" in fields) &&
            ("description" in fields ==> item.description.value == fields["description"]) &&
            (("quantity" !in fields || fields["quantity"] == "") ==> item.quantity == Some(Zero)) &&
            (("unit_price" !in fields || fields["unit_price"] == "") ==> item.unitPrice == Some(Zero)) &&
            (("vat_rate" !in fields || fields["vat_rate"] == "") ==> item.vatRate == Some(Zero))
  {
    ParseZero();
  }

  /** Every parsed item carries all three numbers, so the totals engine never falls back on a missing one. */
  lemma ItemsHaveNumbers(entries: Entries)
    requires ItemsOf(entries).Ok?
    ensures forall k :: 0 <= k < |ItemsOf(entries).value| ==>
              var item := ItemsOf(entries).value[k];
              item.quantity.Some? && item.unitPrice.Some? && item.vatRate.Some?
  {
    ItemsByIndex(entries);
  }
}
