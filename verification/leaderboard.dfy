/** `LeaderboardData`: the object that normalises a raw leaderboard. Each protected step
    of the original is a method that updates the fields in place, proved to compute the
    matching function of `Pipeline`; `Create` runs the constructor's steps in order and
    yields the object or the error the constructor throws. */
module Leaderboard {
  import opened Values
  import opened Pipeline

  /** `obj_null_to_zero`: a copy of the record with every `null` replaced by 0. */
  method ObjNullToZero(obj: Row) returns (ret: Row)
    requires WellFormed(obj)
    ensures ret == NullToZero(obj)
  {
    ret := obj;
    for j := 0 to |obj.keys|
      invariant ret.keys == obj.keys && ret.vals.Keys == obj.vals.Keys
      invariant forall k | k in obj.vals ::
        ret.vals[k] == if k in obj.keys[..j] && obj.vals[k] == Null then Num(0.0) else obj.vals[k]
    {
      var k := obj.keys[j];
      assert obj.keys[..j + 1] == obj.keys[..j] + [k];
      assert k !in obj.keys[..j];
      if ret.vals[k] == Null {
        ret := Set(ret, k, Num(0.0));
      }
    }
    assert obj.keys[..|obj.keys|] == obj.keys;
  }

  /** The body of one record of `apply_extra_weight`: the weight total, the weighted sum
      over the record's keys that have a weight, and their quotient. */
  method WeightedScore(zero: Row, weights: seq<(string, real)>) returns (score: Value)
    ensures score == WeightScore(zero, weights)
  {
    var wSum := 0.0;
    for j := 0 to |weights|
      invariant wSum == WeightTotal(weights[..j])
    {
      assert weights[..j + 1][..j] == weights[..j];
      wSum := wSum + weights[j].1;
    }
    assert weights[..|weights|] == weights;
    var sum: Option<real> := Some(0.0);
    for j := 0 to |zero.keys|
      invariant sum == RowWeightedSum(zero, zero.keys[..j], weights)
    {
      assert zero.keys[..j + 1][..j] == zero.keys[..j];
      var k := zero.keys[j];
      match WeightOf(weights, k)
      case None =>
      case Some(w) => sum := Plus(sum, Term(Get(zero, k), w));
    }
    assert zero.keys[..|zero.keys|] == zero.keys;
    score := match sum
      case None => NonFinite
      case Some(s) => if wSum == 0.0 then NonFinite else Num(s / wSum);
  }

  /** One record of `add_pb_score`: left alone when its size is NaN, otherwise
      `pb-k = Number(v) / size` for each eligible entry, read from the entries as they were. */
  method PbScoreRow(x: Row) returns (y: Row)
    requires WellFormed(x)
    ensures y == PbRow(x) && WellFormed(y)
  {
    PbRowSpec(x);
    y := x;
    var size := ToNumber(Get(x, "size"));
    if size.None? {
      return;
    }
    var entries := x.keys;
    for j := 0 to |entries|
      invariant y == PbFold(x, entries[..j], size.value)
    {
      assert entries[..j + 1][..j] == entries[..j];
      var k := entries[j];
      if Eligible(k) {
        y := Set(y, "pb-" + k, PbValue(Get(x, k), size.value));
      }
    }
    assert entries[..|entries|] == entries;
  }

  /** One record of `add_uq_score`: `uq-k = unquant(v, quant)` for each eligible numeric
      entry; `quant.toLowerCase()` throws when the quantization is not a string. */
  method UqScoreRow(x: Row) returns (res: Result<Row>)
    requires WellFormed(x)
    ensures res == UqRow(x) && (res.Ok? ==> WellFormed(res.value))
  {
    UqRowSpec(x);
    var y := x;
    var quant := Get(x, "quantization");
    var entries := x.keys;
    for j := 0 to |entries|
      invariant UqFold(x, entries[..j], quant) == Ok(y)
    {
      assert entries[..j + 1][..j] == entries[..j];
      var k := entries[j];
      var v := Get(x, k);
      if Eligible(k) && IsNumber(v) {
        match quant
        case Str(q) =>
          y := Set(y, "uq-" + k, UqValue(v, q));
        case _ =>
          UqFoldFails(x, entries, quant);
          return Err(NotAString);
      }
    }
    assert entries[..|entries|] == entries;
    res := Ok(y);
  }

  /** The visibility of each column: every column is listed, visible unless hidden. */
  function Visibility(t: Table): (vis: map<string, bool>)
    ensures forall k :: k in vis <==> k in t.columns
    ensures forall k | k in vis :: vis[k] <==> k !in t.hidden
  {
    map k | k in t.columns :: k !in t.hidden
  }

  class LeaderboardData {
    const raw: seq<RawRecord>
    var data: seq<Row>
    var columns: seq<string>
    var defaultHidden: seq<string>
    var metadata: Metadata

    /** Every record is well formed, as JavaScript objects are. */
    predicate Valid()
      reads this
    {
      RawWellFormed(raw) && forall i | 0 <= i < |data| :: WellFormed(data[i])
    }

    /** The fields, as a value. */
    function State(): Table
      reads this
    {
      Table(data, columns, defaultHidden, metadata)
    }

    /** The field initialisers; the steps of the original constructor are run by `Create`. */
    constructor (raw: seq<RawRecord>)
      requires RawWellFormed(raw)
      ensures Valid() && this.raw == raw
      ensures State() == Table([], [], [], NoMetadata)
    {
      this.raw := raw;
      data := [];
      columns := [];
      defaultHidden := [];
      metadata := NoMetadata;
    }

    /** `get_column_visibility` */
    function GetColumnVisibility(): (vis: map<string, bool>)
      reads this
      ensures vis == Visibility(State())
    {
      map k | k in columns :: k !in defaultHidden
    }

    /** `collect_columns`: the keys of all raw records, each once, first-seen order, the
        internal ones dropped. */
    method CollectColumns()
      modifies this`columns
      ensures columns == CollectedColumns(raw)
    {
      var cols: seq<string> := [];
      for i := 0 to |raw|
        invariant cols == Dedup(Flatten(Fields(raw)[..i]))
      {
        ghost var seen := Flatten(Fields(raw)[..i]);
        var keys := raw[i].fields.keys;
        assert seen + keys[..0] == seen;
        for j := 0 to |keys|
          invariant cols == Dedup(seen + keys[..j])
        {
          assert seen + keys[..j + 1] == (seen + keys[..j]) + [keys[j]];
          DedupSnoc(seen + keys[..j], keys[j]);
          if keys[j] !in cols {
            cols := cols + [keys[j]];
          }
        }
        assert keys[..|keys|] == keys;
        FlattenSnoc(Fields(raw), i);
      }
      assert Fields(raw)[..|raw|] == Fields(raw);
      columns := DropInternal(cols);
    }

    /** `load_data`: each raw record without its internal keys. */
    method LoadData()
      requires Valid()
      modifies this`data
      ensures Valid() && data == Loaded(raw)
    {
      data := seq(|raw|, i requires 0 <= i < |raw| => StripInternal(raw[i].fields));
      forall i | 0 <= i < |data| ensures WellFormed(data[i]) {
        StripInternalSpec(raw[i].fields);
      }
    }

    /** `null_fixed`: every record gets `null` for each column it lacks. */
    method NullFixed()
      requires Valid()
      modifies this`data
      ensures Valid() && data == NullFilled(old(data), columns)
    {
      for i := 0 to |data|
        invariant Valid() && |data| == |old(data)|
        invariant forall k | 0 <= k < i :: data[k] == FillNull(old(data)[k], columns)
        invariant forall k | i <= k < |data| :: data[k] == old(data)[k]
      {
        var x := data[i];
        for j := 0 to |columns|
          invariant x == FillNull(old(data)[i], columns[..j])
        {
          assert columns[..j + 1][..j] == columns[..j];
          if columns[j] !in x.vals {
            x := Set(x, columns[j], Null);
          }
        }
        assert columns[..|columns|] == columns;
        FillNullSpec(old(data)[i], columns);
        data := data[i := x];
      }
    }

    /** `apply_extra_formula`: `{...x, [name]: f(x_zero)}` for every record. */
    method ApplyExtraFormula(name: string, formula: string, eval: Evaluator)
      requires Valid()
      modifies this`data
      ensures Valid() && Ok(data) == ApplyRule(old(data), Formula(name, formula), eval)
    {
      for i := 0 to |data|
        invariant Valid() && |data| == |old(data)|
        invariant forall k | 0 <= k < i :: data[k] == Set(old(data)[k], name, eval(formula, NullToZero(old(data)[k])))
        invariant forall k | i <= k < |data| :: data[k] == old(data)[k]
      {
        var zero := ObjNullToZero(data[i]);
        data := data[i := Set(data[i], name, eval(formula, zero))];
      }
      assert data == ApplyRule(old(data), Formula(name, formula), eval).value;
    }

    /** `apply_extra_formula_map`: for each record, `x[name with col] = x_zero[col]` for
        each listed column in turn. */
    method ApplyExtraFormulaMap(column: seq<string>, name: string, ghost eval: Evaluator)
      requires Valid()
      modifies this`data
      ensures Valid() && Ok(data) == ApplyRule(old(data), FormulaMap(column, name), eval)
    {
      for i := 0 to |data|
        invariant Valid() && |data| == |old(data)|
        invariant forall k | 0 <= k < i :: data[k] == FormulaMapRow(old(data)[k], NullToZero(old(data)[k]), column, name)
        invariant forall k | i <= k < |data| :: data[k] == old(data)[k]
      {
        var x := data[i];
        var zero := ObjNullToZero(x);
        for j := 0 to |column|
          invariant x == FormulaMapRow(data[i], zero, column[..j], name)
        {
          assert column[..j + 1][..j] == column[..j];
          var col := column[j];
          x := Set(x, MapKey(name, col), Get(zero, col));
        }
        assert column[..|column|] == column;
        FormulaMapRowKeys(data[i], zero, column, name);
        data := data[i := x];
      }
      assert data == ApplyRule(old(data), FormulaMap(column, name), eval).value;
    }

    /** `apply_extra_weight`: `{...x, [name]: sum / w_sum}` for every record. */
    method ApplyExtraWeight(name: string, weights: seq<(string, real)>, ghost eval: Evaluator)
      requires Valid()
      modifies this`data
      ensures Valid() && Ok(data) == ApplyRule(old(data), Weight(name, weights), eval)
    {
      for i := 0 to |data|
        invariant Valid() && |data| == |old(data)|
        invariant forall k | 0 <= k < i :: data[k] == WeightRow(old(data)[k], name, weights)
        invariant forall k | i <= k < |data| :: data[k] == old(data)[k]
      {
        var zero := ObjNullToZero(data[i]);
        var score := WeightedScore(zero, weights);
        data := data[i := Set(data[i], name, score)];
      }
      assert data == ApplyRule(old(data), Weight(name, weights), eval).value;
    }

    /** `apply_metadata`: records the metadata, hides its `hidden_columns`, then applies
        the extra-column rules in order; an unknown rule type throws. */
    method ApplyMetadata(meta: Metadata, eval: Evaluator) returns (err: Option<Error>)
      requires Valid()
      modifies this`data, this`defaultHidden, this`metadata
      ensures Valid() && metadata == meta && defaultHidden == old(defaultHidden) + meta.hiddenColumns
      ensures match ApplyRules(old(data), meta.extraColumns, eval)
        case Err(e) => err == Some(e)
        case Ok(d) => err == None && data == d
    {
      metadata := meta;
      defaultHidden := defaultHidden + meta.hiddenColumns;
      var rules := meta.extraColumns;
      for i := 0 to |rules|
        invariant Valid() && metadata == meta && defaultHidden == old(defaultHidden) + meta.hiddenColumns
        invariant ApplyRules(old(data), rules[..i], eval) == Ok(data)
      {
        ApplyRulesAppend(old(data), rules[..i], rules[i], eval);
        assert rules[..i + 1] == rules[..i] + [rules[i]];
        match rules[i]
        case Formula(name, formula) => ApplyExtraFormula(name, formula, eval);
        case FormulaMap(column, name) => ApplyExtraFormulaMap(column, name, eval);
        case Weight(name, weights) => ApplyExtraWeight(name, weights, eval);
        case Unknown(kind) =>
          ApplyRulesPrefixError(old(data), rules, i + 1, eval);
          return Some(UnknownExtraType(kind));
      }
      assert rules[..|rules|] == rules;
      err := None;
    }

    /** `parse`: no first record throws; a `__meta__` object on it is applied. */
    method Parse(eval: Evaluator) returns (err: Option<Error>)
      requires Valid()
      modifies this`data, this`defaultHidden, this`metadata
      ensures Valid()
      ensures raw == [] ==> err == Some(NoData)
      ensures raw != [] ==>
        match Parsed(old(State()), raw[0].meta, eval)
        case Err(e) => err == Some(e)
        case Ok(t) => err == None && State() == t
    {
      if |raw| == 0 {
        return Some(NoData);
      }
      match raw[0].meta
      case None =>
        err := None;
      case Some(meta) =>
        err := ApplyMetadata(meta, eval);
    }

    /** The `forEach` of `add_pb_score` and `add_uq_score`: a hidden `prefix + k` column
        for every eligible column k. It visits only the columns present when it starts. */
    method RegisterDerived(prefix: string)
      modifies this`columns, this`defaultHidden
      ensures columns == old(columns) + Derived(prefix, old(columns))
      ensures defaultHidden == old(defaultHidden) + Derived(prefix, old(columns))
    {
      var n := |columns|;
      for i := 0 to n
        invariant columns == old(columns) + Derived(prefix, old(columns)[..i])
        invariant defaultHidden == old(defaultHidden) + Derived(prefix, old(columns)[..i])
      {
        var k := columns[i];
        assert old(columns)[..i + 1][..i] == old(columns)[..i];
        if Eligible(k) {
          columns := columns + [prefix + k];
          defaultHidden := defaultHidden + [prefix + k];
        }
      }
      assert old(columns)[..n] == old(columns);
    }

    /** `add_pb_score`: with a `size` column, registers a hidden `pb-k` column for every
        eligible column k and gives every record with a numeric size `pb-k = v / size`. */
    method AddPbScore()
      requires Valid()
      modifies this`data, this`columns, this`defaultHidden
      ensures Valid() && State() == AddPb(old(State()))
    {
      if "size" !in columns {
        return;
      }
      RegisterDerived("pb-");
      var rows := data;
      ghost var registered, hidden := columns, defaultHidden;
      for i := 0 to |rows|
        invariant Valid() && |data| == |rows|
        invariant forall j | 0 <= j < i :: data[j] == PbRow(rows[j])
        invariant columns == registered && defaultHidden == hidden
        invariant forall j | i <= j < |rows| :: data[j] == rows[j]
      {
        var x := PbScoreRow(rows[i]);
        data := data[i := x];
      }
      assert data == PbRows(rows);
    }

    /** `add_uq_score`: with a `quantization` column, registers a hidden `uq-k` column for
        every eligible column k and gives every numeric value `uq-k = unquant(v, quant)`;
        a record whose quantization is not a string makes it throw. */
    method AddUqScore() returns (err: Option<Error>)
      requires Valid()
      modifies this`data, this`columns, this`defaultHidden
      ensures Valid()
      ensures match AddUq(old(State()))
        case Err(e) => err == Some(e)
        case Ok(t) => err == None && State() == t
    {
      if "quantization" !in columns {
        return None;
      }
      RegisterDerived("uq-");
      var rows := data;
      ghost var registered, hidden := columns, defaultHidden;
      for i := 0 to |rows|
        invariant Valid() && |data| == |rows|
        invariant UqRows(rows[..i]) == Ok(data[..i])
        invariant columns == registered && defaultHidden == hidden
        invariant forall j | i <= j < |rows| :: data[j] == rows[j]
      {
        var x := UqScoreRow(rows[i]);
        if x.Err? {
          UqRowsFailure(rows, i);
          return Some(NotAString);
        }
        assert rows[..i + 1][..i] == rows[..i];
        data := data[i := x.value];
        assert data[..i + 1] == data[..i] + [x.value];
      }
      assert rows[..|rows|] == rows && data[..|data|] == data;
      err := None;
    }

    /** `hidden_quant_if_empty`: hides `quantization` when no raw record has a truthy one. */
    method HiddenQuantIfEmpty()
      modifies this`defaultHidden
      ensures State() == HideQuantIfEmpty(old(State()), raw)
    {
      var i := 0;
      while i < |raw| && !Truthy(Get(raw[i].fields, "quantization"))
        invariant 0 <= i <= |raw|
        invariant forall j | 0 <= j < i :: !Truthy(Get(raw[j].fields, "quantization"))
      {
        i := i + 1;
      }
      if i == |raw| {
        defaultHidden := defaultHidden + ["quantization"];
      }
    }

    /** `data_fixed`: every number rounded to two decimal places. */
    method DataFixed()
      requires Valid()
      modifies this`data
      ensures Valid() && State() == Fixed(old(State()))
    {
      var rows := data;
      data := seq(|rows|, i requires 0 <= i < |rows| => RoundRow(rows[i]));
      forall i | 0 <= i < |rows| ensures WellFormed(data[i]) {
        RoundRowSpec(rows[i]);
      }
    }

    /** `new LeaderboardData(raw)`: the constructor's steps in order, giving the normalised
        table or the error the constructor throws. */
    static method Create(raw: seq<RawRecord>, eval: Evaluator) returns (res: Result<LeaderboardData>)
      requires RawWellFormed(raw)
      ensures match Normalize(raw, eval)
        case Err(e) => res == Err(e)
        case Ok(t) => res.Ok? && fresh(res.value) && res.value.raw == raw && res.value.State() == t
    {
      var d := new LeaderboardData(raw);
      d.CollectColumns();
      d.LoadData();
      d.NullFixed();
      assert d.State() == Prepared(raw);
      var err := d.Parse(eval);
      if err.Some? {
        return Err(err.value);
      }
      d.AddPbScore();
      err := d.AddUqScore();
      if err.Some? {
        return Err(err.value);
      }
      d.HiddenQuantIfEmpty();
      d.DataFixed();
      return Ok(d);
    }
  }
}
