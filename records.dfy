/** Product records as the JavaScript code sees them: plain objects whose
    fields come from the seed data or from a parsed JSON request body. */
module Records {

  /** A JSON field value. `Obj` is a nested object whose contents the model
      does not look into. */
  datatype Value = Str(s: string) | Num(n: int) | Bool(b: bool) | Null | Obj

  /** A record is an object: a map from field name to value. */
  type Record = map<string, Value>

  /** `p.id === id` for a string `id`: the record has an `id` field holding
      exactly that string. */
  predicate HasId(p: Record, id: string)
  {
    "id" in p && p["id"] == Str(id)
  }

  /** `Object.assign(target, source)` on fresh copies: every field of `over`
      wins, every other field of `base` is kept. */
  function Assign(base: Record, over: Record): (r: Record)
    ensures r.Keys == base.Keys + over.Keys
    ensures forall k :: k in over ==> r[k] == over[k]
    ensures forall k :: k in base && k !in over ==> r[k] == base[k]
  {
    base + over
  }

  /** ASCII lower-casing of one character. */
  function LowerChar(c: char): char
  {
    if 'A' <= c <= 'Z' then (c as int + 32) as char else c
  }

  /** ASCII lower-casing of a string, character by character. */
  function Lower(s: string): (r: string)
    ensures |r| == |s|
    ensures forall i :: 0 <= i < |s| ==> r[i] == LowerChar(s[i])
    ensures forall i :: 0 <= i < |r| ==> !('A' <= r[i] <= 'Z')
  {
    seq(|s|, i requires 0 <= i < |s| => LowerChar(s[i]))
  }

  /** `needle` occurs in `hay` starting at index `i`. */
  predicate OccursAt(hay: string, needle: string, i: int)
  {
    0 <= i && i + |needle| <= |hay| && hay[i..i + |needle|] == needle
  }

  /** `hay.includes(needle)`. */
  predicate Contains(hay: string, needle: string)
  {
    exists i :: 0 <= i <= |hay| - |needle| && OccursAt(hay, needle, i)
  }

  /** The record's `name` field is a string, so `p.name.toLowerCase()` is
      defined; for any other value (or a missing field) it throws. */
  predicate HasStringName(p: Record)
  {
    "name" in p && p["name"].Str?
  }

  /** The number a string of decimal digits spells (Horner's rule). */
  function DecimalValue(s: string): nat
  {
    if s == [] then 0
    else
      var c := s[|s| - 1];
      DecimalValue(s[..|s| - 1]) * 10 + (if '0' <= c <= '9' then c as int - '0' as int else 0)
  }

  /** Appending a digit multiplies the value by ten and adds the digit. */
  lemma DecimalValueAppend(s: string, c: char)
    requires '0' <= c <= '9'
    ensures DecimalValue(s + [c]) == DecimalValue(s) * 10 + (c as int - '0' as int)
  {
    assert (s + [c])[..|s|] == s;
  }

  /** Decimal digits of a natural number: read back they give `n`, and there
      is no leading zero. */
  function NatToDecimal(n: nat): (r: string)
    ensures |r| >= 1
    ensures forall i :: 0 <= i < |r| ==> '0' <= r[i] <= '9'
    ensures DecimalValue(r) == n
    ensures n > 0 ==> r[0] != '0'
    ensures |r| > 1 ==> r[0] != '0'
    decreases n
  {
    var d := ['0', '1', '2', '3', '4', '5', '6', '7', '8', '9'][n % 10];
    if n < 10 then [d]
    else
      DecimalValueAppend(NatToDecimal(n / 10), d);
      NatToDecimal(n / 10) + [d]
  }

  /** `String(n)` for an integer. */
  function IntToDecimal(n: int): (r: string)
    ensures n >= 0 ==> r == NatToDecimal(n)
    ensures n < 0 ==> |r| >= 2 && r[0] == '-' && r[1..] == NatToDecimal(-n)
  {
    if n < 0 then "-" + NatToDecimal(-n) else NatToDecimal(n)
  }

  /** The property key that `acc[p.category]` uses: a string category is
      itself, any other value is converted to a string, and a missing
      category reads as `undefined`. */
  function CategoryKey(p: Record): (k: string)
    ensures "category" !in p ==> k == "undefined"
    ensures "category" in p && p["category"].Str? ==> k == p["category"].s
    ensures "category" in p && p["category"] == Null ==> k == "null"
    ensures "category" in p && p["category"].Bool? ==> k == (if p["category"].b then "true" else "false")
    ensures "category" in p && p["category"] == Obj ==> k == "[object Object]"
    ensures "category" in p && p["category"].Num? && p["category"].n >= 0 ==>
      |k| >= 1 && (forall i :: 0 <= i < |k| ==> '0' <= k[i] <= '9')
      && DecimalValue(k) == p["category"].n && (|k| > 1 ==> k[0] != '0')
    ensures "category" in p && p["category"].Num? && p["category"].n < 0 ==>
      |k| >= 2 && k[0] == '-' && (forall i :: 1 <= i < |k| ==> '0' <= k[i] <= '9')
      && DecimalValue(k[1..]) == -p["category"].n && k[1] != '0'
  {
    if "category" !in p then "undefined"
    else match p["category"]
      case Str(s) => s
      case Num(n) => IntToDecimal(n)
      case Bool(b) => if b then "true" else "false"
      case Null => "null"
      case Obj => "[object Object]"
  }

  /** Property keys are strings, so distinct category values can land on
      the same key and be counted together. */
  lemma KeyCollisions()
    ensures CategoryKey(map["category" := Num(5)]) == CategoryKey(map["category" := Str("5")]) == "5"
    ensures CategoryKey(map[]) == CategoryKey(map["category" := Str("undefined")])
    ensures CategoryKey(map["category" := Null]) == CategoryKey(map["category" := Str("null")])
  {
  }
}
