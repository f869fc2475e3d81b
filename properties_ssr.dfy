/**
 * The server-side catalog loader of src/lib/ssr/properties.ts: raw JSON
 * records are normalised into `Property` values, and the catalog
 * statistics are computed from the normalised list.
 */
module PropertiesSsr {
  import opened Wrappers
  import opened PropertyTypes
  import opened Text

  /** A JSON value as read from the catalog file; its numbers are integers. */
  datatype Json =
    | JNull
    | JBool(b: bool)
    | JNum(n: int)
    | JStr(s: string)
    | JArray(items: seq<Json>)
    | JObject(fields: map<string, Json>)

  /** `p[key]` for a record cast to `Record<string, unknown>`; `None` is `undefined`. */
  function Get(record: Json, key: string): (r: Option<Json>)
    ensures r.Some? <==> record.JObject? && key in record.fields
  {
    if record.JObject? && key in record.fields then Some(record.fields[key]) else None
  }

  /** JavaScript truthiness of a possibly `undefined` value. */
  predicate Truthy(v: Option<Json>) {
    match v
    case None => false
    case Some(JNull) => false
    case Some(JBool(b)) => b
    case Some(JNum(n)) => n != 0
    case Some(JStr(s)) => s != ""
    case Some(_) => true
  }

  /** `String(v)` of a JSON value. */
  function ToText(v: Json): string
    decreases v
  {
    match v
    case JNull => "null"
    case JBool(b) => if b then "true" else "false"
    case JNum(n) => IntToDecimal(n)
    case JStr(s) => s
    case JArray(items) => JoinItems(items, v)
    case JObject(_) => "[object Object]"
  }

  /** `items.join(",")`, where `null` elements print as the empty string. */
  function JoinItems(items: seq<Json>, whole: Json): string
    requires forall i :: 0 <= i < |items| ==> items[i] < whole
    decreases whole, |items|
  {
    if items == [] then ""
    else
      (if items[0].JNull? then "" else ToText(items[0])) +
      (if |items| == 1 then "" else "," + JoinItems(items[1..], whole))
  }

  /**
   * `Number(s)` of a string: blank text is 0, an optionally signed run of
   * decimal digits (surrounding white space allowed) is its value, and
   * anything else is `NaN` (`None`).
   */
  function NumberOfString(s: string): (r: Option<int>)
    ensures IsBlank(s) ==> r == Some(0)
    ensures r.Some? <==> IsBlank(s) || (SignFree(Trim(s)) != [] && AllDigits(SignFree(Trim(s))))
    ensures r.Some? && !IsBlank(s) ==> r == ParseInt(Trim(s))
  {
    var t := Trim(s);
    var unsigned := SignFree(t);
    if t == "" then Some(0)
    else if unsigned != [] && AllDigits(unsigned) then
      assert TrimStart(t) == t by { assert IsDigit(t[0]) || t[0] == '-' || t[0] == '+'; }
      ParseInt(t)
    else None
  }

  /** Round trip: `Number(String(n)) === n` for every integer `n`. */
  lemma NumberOfDecimal(n: int)
    ensures NumberOfString(IntToDecimal(n)) == Some(n)
  {
    var s := IntToDecimal(n);
    NoLeadingWhitespace(s);
    assert !IsWhitespace(s[|s| - 1]);
    assert Trim(s) == s;
    ParseIntOfDecimal(n);
  }

  /** `Number(v)`; `None` stands for `NaN`. */
  function ToNumber(v: Option<Json>): Option<int> {
    match v
    case None => None
    case Some(JNull) => Some(0)
    case Some(JBool(b)) => Some(if b then 1 else 0)
    case Some(JNum(n)) => Some(n)
    case Some(JStr(s)) => NumberOfString(s)
    case Some(other) => NumberOfString(ToText(other))
  }

  /** `Number(v) || fallback`: `NaN` and 0 are falsy. */
  function NumberOr(v: Option<Json>, fallback: int): (r: int)
    ensures r == fallback <==> ToNumber(v).None? || ToNumber(v) == Some(0) || ToNumber(v) == Some(fallback)
    ensures r != fallback ==> ToNumber(v) == Some(r)
  {
    var n := ToNumber(v);
    if n.None? || n.value == 0 then fallback else n.value
  }

  /** `String(v || '')`. */
  function TextOr(v: Option<Json>): (r: string)
    ensures !Truthy(v) ==> r == ""
    ensures v.Some? && v.value.JStr? ==> r == v.value.s
  {
    if Truthy(v) then ToText(v.value) else ""
  }

  /** The `tipo` kept only when it is exactly one of the two catalog types. */
  function NormalType(v: Option<Json>): (r: string)
    ensures IsPropertyType(r)
    ensures v == Some(JStr(Departamento)) <==> r == Departamento
    ensures v == Some(JStr(Casa)) ==> r == Casa
  {
    if v == Some(JStr(Casa)) || v == Some(JStr(Departamento)) then v.value.s else Casa
  }

  /** The normalisation applied to every raw record. */
  function Normalize(raw: Json): (p: Property)
    ensures IsPropertyType(p.tipo)
    ensures p.ambientes != 0
  {
    Property(
      NumberOr(Get(raw, "id"), 0),
      TextOr(Get(raw, "titulo")),
      TextOr(Get(raw, "ciudad")),
      NormalType(Get(raw, "tipo")),
      NumberOr(Get(raw, "precio"), 0),
      NumberOr(Get(raw, "ambientes"), 1),
      NumberOr(Get(raw, "metros_cuadrados"), 0),
      TextOr(Get(raw, "imagen")))
  }

  /** A property written as a JSON record, the form the catalog file stores. */
  function Encode(p: Property): Json {
    JObject(map[
      "id" := JNum(p.id),
      "titulo" := JStr(p.titulo),
      "ciudad" := JStr(p.ciudad),
      "tipo" := JStr(p.tipo),
      "precio" := JNum(p.precio),
      "ambientes" := JNum(p.ambientes),
      "metros_cuadrados" := JNum(p.metrosCuadrados),
      "imagen" := JStr(p.imagen)])
  }

  /** A well-formed record is read back unchanged. */
  lemma NormalizeEncode(p: Property)
    requires IsPropertyType(p.tipo) && p.ambientes != 0
    ensures Normalize(Encode(p)) == p
  {
    var raw := Encode(p);
    assert Get(raw, "tipo") == Some(JStr(p.tipo));
    assert Get(raw, "ambientes") == Some(JNum(p.ambientes));
  }

  /** Normalising twice changes nothing. */
  lemma NormalizeIdempotent(raw: Json)
    ensures Normalize(Encode(Normalize(raw))) == Normalize(raw)
  {
    NormalizeEncode(Normalize(raw));
  }

  /** A `null` record makes `p.id` throw; the `catch` turns that into []. */
  predicate HasNullItem(items: seq<Json>) {
    exists i :: 0 <= i < |items| && items[i].JNull?
  }

  /** `getAllPropertiesSSR` on the imported catalog data. */
  function GetAllPropertiesSSR(data: Json): (r: seq<Property>)
    ensures !data.JArray? ==> r == []
    ensures data.JArray? && HasNullItem(data.items) ==> r == []
    ensures data.JArray? && !HasNullItem(data.items) ==>
              |r| == |data.items| && forall i :: 0 <= i < |r| ==> r[i] == Normalize(data.items[i])
    ensures forall i :: 0 <= i < |r| ==> IsPropertyType(r[i].tipo) && r[i].ambientes != 0
  {
    if !data.JArray? || HasNullItem(data.items) then []
    else seq(|data.items|, i requires 0 <= i < |data.items| => Normalize(data.items[i]))
  }

  /** A catalog file holding well-formed records loads as exactly those records. */
  lemma LoadEncoded(ps: seq<Property>)
    requires forall i :: 0 <= i < |ps| ==> IsPropertyType(ps[i].tipo) && ps[i].ambientes != 0
    ensures GetAllPropertiesSSR(JArray(seq(|ps|, i requires 0 <= i < |ps| => Encode(ps[i])))) == ps
  {
    var items := seq(|ps|, i requires 0 <= i < |ps| => Encode(ps[i]));
    assert !HasNullItem(items);
    forall i | 0 <= i < |ps| ensures Normalize(items[i]) == ps[i] {
      NormalizeEncode(ps[i]);
    }
  }

  // ---------------------------------------------------------------------
  // Statistics

  /** `new Set(s)`. */
  function ToSet<T>(s: seq<T>): set<T> {
    if s == [] then {} else {s[0]} + ToSet(s[1..])
  }

  lemma {:induction false} ToSetMembers<T>(s: seq<T>)
    ensures forall x :: x in ToSet(s) <==> x in s
  {
    if s != [] {
      ToSetMembers(s[1..]);
      assert s == [s[0]] + s[1..];
    }
  }

  lemma {:induction false} ToSetSize<T>(s: seq<T>)
    ensures |ToSet(s)| <= |s|
    ensures s != [] ==> |ToSet(s)| >= 1
  {
    if s != [] {
      ToSetSize(s[1..]);
    }
  }

  function Cities(ps: seq<Property>): seq<string> {
    seq(|ps|, i requires 0 <= i < |ps| => ps[i].ciudad)
  }

  function Types(ps: seq<Property>): seq<string> {
    seq(|ps|, i requires 0 <= i < |ps| => ps[i].tipo)
  }

  /** `properties.reduce((sum, p) => sum + p.precio, 0)`. */
  function PriceSum(ps: seq<Property>): int {
    if ps == [] then 0 else PriceSum(ps[..|ps| - 1]) + ps[|ps| - 1].precio
  }

  /** `Math.round(sum / n)` for `n > 0`: the nearest integer, halves rounded up. */
  function RoundedMean(sum: int, n: int): (avg: int)
    requires n > 0
    ensures 2 * n * avg - n <= 2 * sum < 2 * n * avg + n
  {
    (2 * sum + n) / (2 * n)
  }

  datatype Stats = Stats(total: nat, cities: nat, types: nat, avgPrice: int)

  /** The statistics of a normalised catalog. */
  function Statistics(ps: seq<Property>): (r: Stats)
    ensures r.total == |ps|
    ensures r.cities == |ToSet(Cities(ps))| && r.types == |ToSet(Types(ps))|
    ensures ps == [] ==> r.avgPrice == 0
    ensures ps != [] ==> 2 * |ps| * r.avgPrice - |ps| <= 2 * PriceSum(ps) < 2 * |ps| * r.avgPrice + |ps|
  {
    var avg := if |ps| > 0 then RoundedMean(PriceSum(ps), |ps|) else 0;
    Stats(|ps|, |ToSet(Cities(ps))|, |ToSet(Types(ps))|, avg)
  }

  /** `getPropertiesStatsSSR`. */
  function GetPropertiesStatsSSR(data: Json): (r: Stats)
    ensures r == Statistics(GetAllPropertiesSSR(data))
    ensures r.total == 0 ==> r.cities == 0 && r.types == 0 && r.avgPrice == 0
  {
    Statistics(GetAllPropertiesSSR(data))
  }

  /** A city or type is counted once however often it occurs; a non-empty catalog has at least one of each and at most two types. */
  lemma StatsBounds(data: Json)
    ensures var r := GetPropertiesStatsSSR(data);
            && r.cities <= r.total && r.types <= r.total && r.types <= 2
            && (r.total > 0 ==> r.cities >= 1 && r.types >= 1)
  {
    var ps := GetAllPropertiesSSR(data);
    ToSetSize(Cities(ps));
    ToSetSize(Types(ps));
    ToSetMembers(Types(ps));
    var types := ToSet(Types(ps));
    assert types <= {Casa, Departamento} by {
      forall t | t in types ensures t in {Casa, Departamento} {
        var i :| 0 <= i < |Types(ps)| && Types(ps)[i] == t;
      }
    }
    SubsetOfPair(types, Casa, Departamento);
  }

  lemma SubsetOfPair<T>(s: set<T>, a: T, b: T)
    requires s <= {a, b}
    ensures |s| <= 2
  {
    if a in s {
      assert s - {a} <= {b};
      assert |s - {a}| <= 1 by {
        if b in s - {a} {
          assert s - {a} == {b};
        } else {
          assert s - {a} == {};
        }
      }
    } else {
      assert s <= {b};
      if b in s {
        assert s == {b};
      } else {
        assert s == {};
      }
    }
  }
}
