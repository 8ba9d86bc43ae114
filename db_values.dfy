// Value-level rules the database layer applies to normalised rows before
// writing them: cleaning of blank cells, the numero_item fallback chains,
// integer conversion and the derived row ids (src/database/manager.py).
module DbValues {
  import opened Wrappers

  /** A normalised row: column name to cell; Python's None is `Null`. */
  type Row = map<string, Value>

  /** `row.get(k)`: the cell, or None when the column is absent. */
  function Get(row: Row, k: string): Value
  {
    if k in row then row[k] else Null
  }

  // ---- Stripping and case ----

  /** The characters below 128 that `str.strip()` removes (the ASCII part of `str.isspace`). */
  predicate IsSpace(c: char)
  {
    c == ' ' || ('\t' <= c <= '\r') || ('\U{1C}' <= c <= '\U{1F}')
  }

  /** How many white-space characters `s` starts with. */
  function LeadingSpace(s: string): (n: nat)
    ensures n <= |s|
    ensures forall k :: 0 <= k < n ==> IsSpace(s[k])
    ensures n < |s| ==> !IsSpace(s[n])
  {
    if s != [] && IsSpace(s[0]) then 1 + LeadingSpace(s[1..]) else 0
  }

  /** Where the white space that `s` ends with begins. */
  function TrailingSpace(s: string): (n: nat)
    ensures n <= |s|
    ensures forall k :: n <= k < |s| ==> IsSpace(s[k])
    ensures 0 < n ==> !IsSpace(s[n - 1])
  {
    if s != [] && IsSpace(s[|s| - 1]) then TrailingSpace(s[..|s| - 1]) else |s|
  }

  /**
   * `str.strip()`: the infix of `s` left once its leading and trailing white
   * space is removed; it neither starts nor ends with white space.
   */
  function Strip(s: string): (r: string)
    ensures r == [] || (!IsSpace(r[0]) && !IsSpace(r[|r| - 1]))
    ensures LeadingSpace(s) + |r| <= |s|
    ensures r == s[LeadingSpace(s)..LeadingSpace(s) + |r|]
    ensures forall k :: 0 <= k < |s| && !(LeadingSpace(s) <= k < LeadingSpace(s) + |r|) ==> IsSpace(s[k])
    ensures r == [] <==> forall k :: 0 <= k < |s| ==> IsSpace(s[k])
  {
    var i, j := LeadingSpace(s), TrailingSpace(s);
    if j <= i then [] else s[i..j]
  }

  /** Stripping what has no surrounding white space changes nothing. */
  lemma StripUnchanged(s: string)
    requires s == [] || (!IsSpace(s[0]) && !IsSpace(s[|s| - 1]))
    ensures Strip(s) == s
  {
    assert LeadingSpace(s) == 0;
  }

  function LowerChar(c: char): char
  {
    if 'A' <= c <= 'Z' then (c as int + 32) as char else c
  }

  function Lower(s: string): (r: string)
    ensures |r| == |s|
    ensures forall i :: 0 <= i < |s| ==> r[i] == LowerChar(s[i])
  {
    seq(|s|, i requires 0 <= i < |s| => LowerChar(s[i]))
  }

  // ---- _limpar_valor ----

  /** The expected kind of a column, which the cleaning is told. */
  datatype Kind = Text | Timestamp | Datetime | Date

  /**
   * `_limpar_valor`: strings are stripped, and a blank or (in any case)
   * "null" string becomes None; every other value is returned unchanged.
   */
  function Clean(v: Value, kind: Kind): (r: Value)
    ensures !v.Str? ==> r == v
    ensures v.Str? ==> (r == Null <==> Strip(v.s) == [] || Lower(Strip(v.s)) == "null")
    ensures v.Str? && r != Null ==> r == Str(Strip(v.s))
  {
    match v
    case Str(s) =>
      var t := Strip(s);
      if t == [] || Lower(t) == "null" then Null
      else if kind != Text && t == [] then Null
      else Str(t)
    case _ => v
  }

  /** The column kind never changes the outcome: the date-specific test is reached only by non-blank strings. */
  lemma CleanIgnoresKind(v: Value, k1: Kind, k2: Kind)
    ensures Clean(v, k1) == Clean(v, k2)
  {
  }

  /** Cleaning a cleaned value changes nothing. */
  lemma CleanIdempotent(v: Value, kind: Kind)
    ensures Clean(Clean(v, kind), kind) == Clean(v, kind)
  {
    if v.Str? && Clean(v, kind) != Null {
      StripUnchanged(Strip(v.s));
    }
  }

  // ---- Python `or` chains and integer conversion ----

  /** `a or b or … or last`: the first truthy operand, else the last one. */
  function PyOr(vals: seq<Value>, last: Value): (r: Value)
    ensures r == last || (TruthyValue(r) && r in vals)
    ensures (exists i :: 0 <= i < |vals| && TruthyValue(vals[i])) ==> TruthyValue(r)
    ensures forall i :: 0 <= i < |vals| && TruthyValue(vals[i]) && (forall j :: 0 <= j < i ==> !TruthyValue(vals[j]))
              ==> r == vals[i]
  {
    if vals == [] then last
    else if TruthyValue(vals[0]) then vals[0]
    else
      var r := PyOr(vals[1..], last);
      assert forall i :: 1 <= i < |vals| ==> vals[i] == vals[1..][i - 1];
      r
  }

  /** Python's `v == 0` on a decoded value (False equals 0). */
  predicate PyEqZero(v: Value)
  {
    v == Num(0) || v == Bool(false)
  }

  /** A numeral once stripped: an optional sign, then at least one decimal digit. */
  predicate SignedNumeral(t: string)
  {
    t != [] && var k := SignLength(t); k < |t| && AllDigits(t[k..])
  }

  /** 1 when the text starts with a sign, else 0. */
  function SignLength(t: string): nat
  {
    if t != [] && (t[0] == '-' || t[0] == '+') then 1 else 0
  }

  /** The number a signed numeral spells: its digits' value, negated after a minus. */
  function NumeralValue(t: string): int
    requires SignedNumeral(t)
  {
    var v: int := DigitsValue(t[SignLength(t)..]);
    if t[0] == '-' then -v else v
  }

  /** Numerals `int()` accepts: optional sign, then decimal digits, inside white space. */
  function ParseInt(s: string): (r: Option<int>)
    ensures r.Some? <==> SignedNumeral(Strip(s))
    ensures r.Some? ==> r.value == NumeralValue(Strip(s))
  {
    var t := Strip(s);
    if t == [] then None
    else if t[0] == '-' || t[0] == '+' then
      var ds := t[1..];
      if ds != [] && AllDigits(ds) then
        var v: int := DigitsValue(ds);
        Some(if t[0] == '-' then -v else v)
      else None
    else if AllDigits(t) then Some(DigitsValue(t))
    else None
  }

  predicate AllDigits(s: string)
  {
    forall i :: 0 <= i < |s| ==> '0' <= s[i] <= '9'
  }

  function DigitsValue(s: string): nat
    requires AllDigits(s)
  {
    if s == [] then 0 else DigitsValue(s[..|s| - 1]) * 10 + (s[|s| - 1] as int - '0' as int)
  }

  lemma DigitCharValue(d: nat)
    requires d < 10
    ensures DigitChar(d) as int - '0' as int == d
  {
  }

  lemma {:induction false} DigitsOfNat(n: nat)
    ensures AllDigits(NatToString(n)) && DigitsValue(NatToString(n)) == n
  {
    var s := NatToString(n);
    if n >= 10 {
      DigitsOfNat(n / 10);
      assert s[..|s| - 1] == NatToString(n / 10);
      DigitCharValue(n % 10);
    } else {
      DigitCharValue(n);
    }
  }

  lemma ParseIntUnsigned(t: string)
    requires Strip(t) == t && t != [] && AllDigits(t)
    ensures ParseInt(t) == Some(DigitsValue(t))
  {
  }

  lemma ParseIntNegative(t: string)
    requires Strip(t) == t && |t| >= 2 && t[0] == '-' && AllDigits(t[1..])
    ensures ParseInt(t) == Some(-(DigitsValue(t[1..]) as int))
  {
  }

  /** A numeral without sign or surrounding white space reads back as its value, and so does its negation. */
  lemma ParseIntOfDigits(ds: string, v: int)
    requires ds != [] && AllDigits(ds) && DigitsValue(ds) == v
    ensures ParseInt(ds) == Some(v)
    ensures ParseInt("-" + ds) == Some(-v)
  {
    StripUnchanged(ds);
    ParseIntUnsigned(ds);
    var m := "-" + ds;
    assert m[0] == '-' && m[|m| - 1] == ds[|ds| - 1] && m[1..] == ds;
    StripUnchanged(m);
    ParseIntNegative(m);
  }

  /** `int(str(n)) == n`. */
  lemma ParseIntOfString(n: int)
    ensures ParseInt(IntToString(n)) == Some(n)
  {
    var p: nat := if n < 0 then -n else n;
    var ds := NatToString(p);
    DigitsOfNat(p);
    ParseIntOfDigits(ds, p);
    assert IntToString(n) == if n < 0 then "-" + ds else ds;
  }

  /** `int(v)` on a decoded value; None when Python raises ValueError or TypeError. */
  function PyInt(v: Value): Option<int>
  {
    match v
    case Num(n) => Some(n)
    case Bool(b) => Some(if b then 1 else 0)
    case Str(s) => ParseInt(s)
    case _ => None
  }

  /** Python's `str(v)` / f-string rendering of a scalar. */
  function PyStr(v: Value): string
  {
    match v
    case Null => "None"
    case Bool(b) => if b then "True" else "False"
    case Num(n) => IntToString(n)
    case Str(s) => s
    case List(_) => "[...]"
    case Obj(_) => "{...}"
  }

  // ---- numero_item and ids ----

  /** The item number of a due_itens row (`_inserir_batch_itens`). */
  function ItemNumber(row: Row): Value
  {
    var n := PyOr([Get(row, "numeroItem"), Get(row, "numero_item")], Num(0));
    if PyEqZero(n) then PyOr([if "numero" in row then row["numero"] else Num(0)], Num(0)) else n
  }

  /** An item row's number is the first truthy of numeroItem, numero_item and numero, else 0. */
  lemma ItemNumberChain(row: Row)
    ensures ItemNumber(row) == PyOr([Get(row, "numeroItem"), Get(row, "numero_item"), Get(row, "numero")], Num(0))
  {
    var a, b, c := Get(row, "numeroItem"), Get(row, "numero_item"), Get(row, "numero");
    assert [a, b, c][1..] == [b, c] && [b, c][1..] == [c];
    assert [a, b][1..] == [b];
  }

  /** The item number of a tratamento row, which also looks at item_numero. */
  function TratamentoNumber(row: Row): Value
  {
    var n := PyOr([Get(row, "numeroItem"), Get(row, "numero_item"), Get(row, "item_numero")], Num(0));
    if PyEqZero(n) then PyOr([if "numero" in row then row["numero"] else Num(0)], Num(0)) else n
  }

  /** The integer item number of an export-invoice row (`_inserir_batch_nf_exportacao`). */
  function NfItemNumber(row: Row): int
  {
    var n := PyOr([Get(row, "numeroItem"), Get(row, "numero_item")], Get(row, "item_numero"));
    var m := if n == Null || PyEqZero(n) then Get(row, "numero") else n;
    if m == Null then 0
    else match PyInt(m) case Some(k) => k case None => 0
  }

  /** Export-invoice item numbers: a number from the first truthy field, 0 when all are missing or unconvertible. */
  lemma NfItemNumberCases(row: Row)
    ensures (forall k :: k in ["numeroItem", "numero_item", "item_numero", "numero"] ==> k !in row) ==> NfItemNumber(row) == 0
    ensures "numeroItem" in row && row["numeroItem"].Num? && row["numeroItem"].n != 0 ==> NfItemNumber(row) == row["numeroItem"].n
    ensures "numeroItem" in row && row["numeroItem"].Str? && TruthyValue(row["numeroItem"]) && ParseInt(row["numeroItem"].s).Some?
            ==> NfItemNumber(row) == ParseInt(row["numeroItem"].s).value
    ensures "numeroItem" in row && row["numeroItem"].Str? && TruthyValue(row["numeroItem"]) && ParseInt(row["numeroItem"].s).None?
            ==> NfItemNumber(row) == 0
  {
    assert "numeroItem" in ["numeroItem", "numero_item", "item_numero", "numero"];
    assert "numero_item" in ["numeroItem", "numero_item", "item_numero", "numero"];
    assert "item_numero" in ["numeroItem", "numero_item", "item_numero", "numero"];
    assert "numero" in ["numeroItem", "numero_item", "item_numero", "numero"];
  }

  /** The id of an item: the DUE number and the item number joined by "_". */
  function ItemId(numeroDue: Value, numeroItem: Value): (id: string)
    ensures var d := PyStr(numeroDue);
            |id| > |d| && id[..|d|] == d && id[|d|] == '_' && id[|d| + 1..] == PyStr(numeroItem)
  {
    PyStr(numeroDue) + "_" + PyStr(numeroItem)
  }

  /** The items of one DUE get distinct ids as long as their numbers read differently. */
  lemma ItemIdsDistinct(numeroDue: Value, a: Value, b: Value)
    ensures ItemId(numeroDue, a) == ItemId(numeroDue, b) <==> PyStr(a) == PyStr(b)
  {
    var d := PyStr(numeroDue);
    if ItemId(numeroDue, a) == ItemId(numeroDue, b) {
      assert PyStr(a) == ItemId(numeroDue, a)[|d| + 1..];
    }
  }

  /** Two different integer item numbers of one DUE never share an id. */
  lemma ItemNumbersDistinct(numeroDue: Value, a: int, b: int)
    ensures ItemId(numeroDue, Num(a)) == ItemId(numeroDue, Num(b)) <==> a == b
  {
    ItemIdsDistinct(numeroDue, Num(a), Num(b));
    if IntToString(a) == IntToString(b) {
      ParseIntOfString(a);
      ParseIntOfString(b);
    }
  }

  /** The default id of the tratamento at `position` of its batch. */
  function TratamentoDefaultId(numeroDue: Value, numeroItem: Value, position: nat): string
  {
    ItemId(numeroDue, numeroItem) + "_" + NatToString(position)
  }

  /** Distinct positions give distinct default tratamento ids for the same item. */
  lemma TratamentoIdsDistinct(numeroDue: Value, numeroItem: Value, p: nat, q: nat)
    requires p != q
    ensures TratamentoDefaultId(numeroDue, numeroItem, p) != TratamentoDefaultId(numeroDue, numeroItem, q)
  {
    var prefix := ItemId(numeroDue, numeroItem) + "_";
    var a, b := NatToString(p), NatToString(q);
    assert TratamentoDefaultId(numeroDue, numeroItem, p) == prefix + a;
    assert TratamentoDefaultId(numeroDue, numeroItem, q) == prefix + b;
    if prefix + a == prefix + b {
      assert a == (prefix + a)[|prefix|..];
      DigitsOfNat(p);
      DigitsOfNat(q);
    }
  }
}
