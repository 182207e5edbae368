/** Turning one product's sale record into spreadsheet rows
    (product name, detail URL, image URL, option, price, order limit). */
module Rows {
  import opened PyJson

  /** The option label of a product sold without options ("single kind"). */
  const SingleKind: string := "單種類"

  /** The product's order limit when the record gives none. */
  const NoLimit: string := "N/A"

  /** One spreadsheet row. Name and URL are always strings; the other cells
      hold whatever the record held. */
  datatype Row = Row(name: string, url: string, image: Json, spec: Json, price: Json, limit: Json)

  /** The cells only a product's first row carries. */
  datatype Head = Head(name: string, url: string, image: Json)

  /** A continuation row of a product with options. */
  function ContinuationRow(spec: Json, price: Json): Row {
    Row("", "", JStr(""), spec, price, JStr(""))
  }

  /** The product's order limit: `maxOrderQuantity` of the record's
      `goodsOrderLimit` (an empty dictionary when absent), "N/A" when missing. */
  function ProductLimit(detail: seq<(string, Json)>): (r: Result<Json>)
    ensures r.Raised? <==> Lookup(detail, "goodsOrderLimit").Some? && !Lookup(detail, "goodsOrderLimit").value.JObj?
    ensures Lookup(detail, "goodsOrderLimit").None? ==> r == Ok(JStr(NoLimit))
    ensures r.Ok? && Lookup(detail, "goodsOrderLimit").Some? ==>
              r.value == Get(Lookup(detail, "goodsOrderLimit").value.fields, "maxOrderQuantity", JStr(NoLimit))
  {
    DictGet(Get(detail, "goodsOrderLimit", JObj([])), "maxOrderQuantity", JStr(NoLimit))
  }

  /** The option list: the record's own `options` when truthy, else the
      `options` of its `option` entry, each defaulting to an empty list. */
  function OptionsOf(detail: seq<(string, Json)>): Result<Json> {
    var top := Get(detail, "options", JArr([]));
    if Truthy(top) then Ok(top)
    else DictGet(Get(detail, "option", JObj([])), "options", JArr([]))
  }

  /** The option list falls back from the top-level `options` to
      `option.options`, and to the empty list when neither is given. */
  lemma OptionsFallback(detail: seq<(string, Json)>)
    ensures Truthy(Get(detail, "options", JArr([]))) ==> OptionsOf(detail) == Ok(Get(detail, "options", JArr([])))
    ensures !Truthy(Get(detail, "options", JArr([]))) && Lookup(detail, "option").None? ==> OptionsOf(detail) == Ok(JArr([]))
    ensures !Truthy(Get(detail, "options", JArr([]))) && Lookup(detail, "option").Some? &&
            Lookup(detail, "option").value.JObj? ==>
              OptionsOf(detail) == Ok(Get(Lookup(detail, "option").value.fields, "options", JArr([])))
    ensures OptionsOf(detail).Raised? <==>
              !Truthy(Get(detail, "options", JArr([]))) && Lookup(detail, "option").Some? &&
              !Lookup(detail, "option").value.JObj?
  {
  }

  /** An option's own limit: `maxOrderQuantity` of its `optionOrderLimit`,
      None when absent; raises when the option, or its limit record, is not a
      dictionary. */
  function OptionLimit(opt: Json): Result<Json> {
    match DictGet(opt, "optionOrderLimit", JObj([]))
    case Raised => Raised
    case Ok(ol) => DictGet(ol, "maxOrderQuantity", JNull)
  }

  /** Reading an option's limit raises exactly when the option, or the limit
      record it gives, is not a dictionary; a missing limit record reads as None. */
  lemma OptionLimitCases(opt: Json)
    ensures OptionLimit(opt).Raised? <==>
              !opt.JObj? || (Lookup(opt.fields, "optionOrderLimit").Some? && !Lookup(opt.fields, "optionOrderLimit").value.JObj?)
    ensures opt.JObj? && Lookup(opt.fields, "optionOrderLimit").None? ==> OptionLimit(opt) == Ok(JNull)
    ensures OptionLimit(opt).Ok? && Lookup(opt.fields, "optionOrderLimit").Some? ==>
              OptionLimit(opt).value == Get(Lookup(opt.fields, "optionOrderLimit").value.fields, "maxOrderQuantity", JNull)
  {
  }

  /** An option the option loop gets through without raising. */
  predicate WellFormedOption(opt: Json) {
    opt.JObj? && OptionLimit(opt).Ok?
  }

  /** The row for the option at position idx, or Raised when reading the
      option raises. */
  function OptionRow(idx: nat, opt: Json, head: Head, limit: Json): Result<Row> {
    if !opt.JObj? then Raised
    else
      match OptionLimit(opt)
      case Raised => Raised
      case Ok(optLimit) =>
        var spec := Get(opt.fields, "saleOptionName", JNull);
        var price := Get(opt.fields, "optionSalePrice", JNull);
        if idx == 0 then Ok(Row(head.name, head.url, head.image, spec, price, if Truthy(optLimit) then optLimit else limit))
        else Ok(ContinuationRow(spec, price))
  }

  /** The rows the option loop appends from position k on: one per option,
      until an option raises; rows appended before that stay. */
  function OptionRowsFrom(opts: seq<Json>, k: nat, head: Head, limit: Json): seq<Row>
    requires k <= |opts|
    decreases |opts| - k
  {
    if k == |opts| then []
    else
      match OptionRow(k, opts[k], head, limit)
      case Raised => []
      case Ok(row) => [row] + OptionRowsFrom(opts, k + 1, head, limit)
  }

  /** The rows one sale record contributes (lines of the `if detail:` block
      after the image): none when reading the limit or the options raises,
      one single-kind row when there are no options, else the option rows. */
  function DetailRows(detail: seq<(string, Json)>, head: Head): seq<Row> {
    match ProductLimit(detail)
    case Raised => []
    case Ok(limit) =>
      match OptionsOf(detail)
      case Raised => []
      case Ok(opts) =>
        if !Truthy(opts) then
          [Row(head.name, head.url, head.image, JStr(SingleKind), Get(detail, "price", JNull), limit)]
        else
          match Iter(opts)
          case Raised => []
          case Ok(os) => OptionRowsFrom(os, 0, head, limit)
  }

  /** `opt.get(key)` on an option known to be a dictionary. */
  function OptionField(opt: Json, key: string): Json {
    if opt.JObj? then Get(opt.fields, key, JNull) else JNull
  }

  /** The row the option at position j of a product with options should give:
      its name and price; row 0 also carries the product's name, URL and
      image, and the option's limit when that is truthy, else the product's;
      later rows leave those four cells blank. */
  predicate IsOptionRow(j: nat, opt: Json, head: Head, limit: Json, row: Row)
    requires WellFormedOption(opt)
  {
    && row.spec == OptionField(opt, "saleOptionName")
    && row.price == OptionField(opt, "optionSalePrice")
    && (j == 0 ==> && row.name == head.name && row.url == head.url && row.image == head.image
                   && row.limit == (if Truthy(OptionLimit(opt).value) then OptionLimit(opt).value else limit))
    && (j > 0 ==> row.name == "" && row.url == "" && row.image == JStr("") && row.limit == JStr(""))
  }

  /** The option loop from k on yields OptionRow's row for each position up
      to the first one that raises. */
  lemma {:induction false} OptionRowsFromRows(opts: seq<Json>, k: nat, m: nat, head: Head, limit: Json)
    requires k <= m <= |opts|
    requires forall j :: k <= j < m ==> OptionRow(j, opts[j], head, limit).Ok?
    requires m < |opts| ==> OptionRow(m, opts[m], head, limit).Raised?
    ensures |OptionRowsFrom(opts, k, head, limit)| == m - k
    ensures forall j :: k <= j < m ==> OptionRowsFrom(opts, k, head, limit)[j - k] == OptionRow(j, opts[j], head, limit).value
    decreases m - k
  {
    if k < m {
      OptionRowsFromRows(opts, k + 1, m, head, limit);
      OptionRowsStep(opts, k, head, limit);
      var rows := OptionRowsFrom(opts, k, head, limit);
      var rest := OptionRowsFrom(opts, k + 1, head, limit);
      forall j | k < j < m ensures rows[j - k] == OptionRow(j, opts[j], head, limit).value {
        assert rows[j - k] == rest[j - (k + 1)];
      }
    } else if m < |opts| {
      OptionRowsStep(opts, m, head, limit);
    }
  }

  /** A readable option gives the row IsOptionRow describes; an unreadable
      one raises. */
  lemma OptionRowIsOptionRow(j: nat, opt: Json, head: Head, limit: Json)
    ensures OptionRow(j, opt, head, limit).Ok? <==> WellFormedOption(opt)
    ensures WellFormedOption(opt) ==> IsOptionRow(j, opt, head, limit, OptionRow(j, opt, head, limit).value)
  {
  }

  /** With the first m options readable and the next one (if any) not, the
      option loop yields exactly m rows, in option order, each as
      IsOptionRow describes. */
  lemma OptionRowsShape(opts: seq<Json>, m: nat, head: Head, limit: Json)
    requires m <= |opts|
    requires forall j :: 0 <= j < m ==> WellFormedOption(opts[j])
    requires m < |opts| ==> !WellFormedOption(opts[m])
    ensures |OptionRowsFrom(opts, 0, head, limit)| == m
    ensures forall j :: 0 <= j < m ==> IsOptionRow(j, opts[j], head, limit, OptionRowsFrom(opts, 0, head, limit)[j])
  {
    forall j | 0 <= j <= m && j < |opts| ensures OptionRow(j, opts[j], head, limit).Ok? <==> WellFormedOption(opts[j]) {
      OptionRowIsOptionRow(j, opts[j], head, limit);
    }
    OptionRowsFromRows(opts, 0, m, head, limit);
    var rows := OptionRowsFrom(opts, 0, head, limit);
    forall j | 0 <= j < m ensures IsOptionRow(j, opts[j], head, limit, rows[j]) {
      OptionRowIsOptionRow(j, opts[j], head, limit);
      assert rows[j] == rows[j - 0];
    }
  }

  /** A sale record without options gives exactly one row, labelled as the
      single kind, with the record's price and the product's limit. */
  lemma NoOptionsSingleRow(detail: seq<(string, Json)>, head: Head)
    requires ProductLimit(detail).Ok? && OptionsOf(detail).Ok? && !Truthy(OptionsOf(detail).value)
    ensures DetailRows(detail, head) ==
              [Row(head.name, head.url, head.image, JStr(SingleKind), Get(detail, "price", JNull), ProductLimit(detail).value)]
  {
  }

  /** One step of the option loop: the option at k gives its row and the
      loop goes on, or it raises and the loop ends there. */
  lemma OptionRowsStep(opts: seq<Json>, k: nat, head: Head, limit: Json)
    requires k < |opts|
    ensures OptionRow(k, opts[k], head, limit).Raised? ==> OptionRowsFrom(opts, k, head, limit) == []
    ensures OptionRow(k, opts[k], head, limit).Ok? ==>
              OptionRowsFrom(opts, k, head, limit) == [OptionRow(k, opts[k], head, limit).value] + OptionRowsFrom(opts, k + 1, head, limit)
  {
  }

  lemma AppendRows(a: seq<Row>, b: seq<Row>, c: seq<Row>)
    ensures a + (b + c) == (a + b) + c
  {
  }

  /** Lines 136-144: one row per option, in order, until an option raises;
      the rows appended before that stay. */
  method OptionLoop(opts: seq<Json>, head: Head, limit: Json) returns (rows: seq<Row>)
    ensures rows == OptionRowsFrom(opts, 0, head, limit)
  {
    rows := [];
    var idx := 0;
    while idx < |opts|
      invariant 0 <= idx <= |opts|
      invariant rows + OptionRowsFrom(opts, idx, head, limit) == OptionRowsFrom(opts, 0, head, limit)
    {
      OptionRowsStep(opts, idx, head, limit);
      var row := OptionRow(idx, opts[idx], head, limit);
      if row.Raised? {
        assert rows + [] == rows;
        return;
      }
      AppendRows(rows, [row.value], OptionRowsFrom(opts, idx + 1, head, limit));
      rows := rows + [row.value];
      idx := idx + 1;
    }
    assert rows + [] == rows;
  }

  /** Lines 130-144: reads the limit and the options, then runs the option
      loop. */
  method FlattenDetail(detail: seq<(string, Json)>, head: Head) returns (rows: seq<Row>)
    ensures rows == DetailRows(detail, head)
  {
    rows := [];
    var limit := ProductLimit(detail);
    if limit.Raised? {
      return;
    }
    var opts := OptionsOf(detail);
    if opts.Raised? {
      return;
    }
    if !Truthy(opts.value) {
      rows := [Row(head.name, head.url, head.image, JStr(SingleKind), Get(detail, "price", JNull), limit.value)];
      return;
    }
    var os := Iter(opts.value);
    if os.Raised? {
      return;
    }
    rows := OptionLoop(os.value, head, limit.value);
  }
}
