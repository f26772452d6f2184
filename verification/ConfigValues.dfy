/** Configuration trees, their typed getters, and their conversion to and from AMQP field tables
    (section 4.2.5.5 of AMQP 0-9-1). */
module ConfigValues {
  import opened Prelude

  const TWO_TO_THE_63: int := 0x8000_0000_0000_0000

  type int64 = x: int | -TWO_TO_THE_63 <= x < TWO_TO_THE_63

  /** A double: the real number it stands for, or one of the values that stand for none. */
  datatype Float = Finite(value: real) | NegativeZero | Infinite(negative: bool) | NotANumber

  datatype ConfigValue =
    | Null
    | Bool(flag: bool)
    | Int64(number: int64)
    | Double(amount: Float)
    | Str(text: string)
    | Arr(items: seq<ConfigValue>)
    | Obj(fields: map<string, ConfigValue>)

  // ---- the typed getters ----

  predicate Has(root: ConfigValue, key: string) { root.Obj? && key in root.fields }

  function RequiredObject(root: ConfigValue, key: string): Result<ConfigValue> {
    if Has(root, key) && root.fields[key].Obj? then Ok(root.fields[key]) else Err(ParseError)
  }

  function OptionalObject(root: ConfigValue, key: string): Result<ConfigValue> {
    if !Has(root, key) then Ok(Obj(map[]))
    else if root.fields[key].Obj? then Ok(root.fields[key]) else Err(ParseError)
  }

  function OptionalArray(root: ConfigValue, key: string): Result<seq<ConfigValue>> {
    if !Has(root, key) then Ok([])
    else if root.fields[key].Arr? then Ok(root.fields[key].items) else Err(ParseError)
  }

  function RequiredString(root: ConfigValue, key: string): Result<string> {
    if Has(root, key) && root.fields[key].Str? && root.fields[key].text != "" then Ok(root.fields[key].text)
    else Err(ParseError)
  }

  function OptionalString(root: ConfigValue, key: string, fallback: string): Result<string> {
    if !Has(root, key) then Ok(fallback)
    else if root.fields[key].Str? then Ok(root.fields[key].text) else Err(ParseError)
  }

  function OptionalBool(root: ConfigValue, key: string, fallback: bool): Result<bool> {
    if !Has(root, key) then Ok(fallback)
    else if root.fields[key].Bool? then Ok(root.fields[key].flag) else Err(ParseError)
  }

  function OptionalInt64(root: ConfigValue, key: string, fallback: int64): Result<int64> {
    if !Has(root, key) then Ok(fallback)
    else if root.fields[key].Int64? then Ok(root.fields[key].number) else Err(ParseError)
  }

  function OptionalArguments(root: ConfigValue, key: string): Result<map<string, ConfigValue>> {
    if !Has(root, key) then Ok(map[])
    else if root.fields[key].Obj? then Ok(root.fields[key].fields) else Err(ParseError)
  }

  // ---- AMQP fields ----

  /** `WholeNumber` stands for every other integer field and `OtherField` for whatever is neither
      integer nor real, with the text it prints as. */
  datatype Field =
    | VoidField
    | BooleanSet(octet: bv8)
    | LongLong(value: int64)
    | WholeNumber(whole: int)
    | FloatField(value32: Float)
    | DoubleField(value64: Float)
    | DecimalField(places: bv8, unscaled: nat)
    | LongString(long: string)
    | ShortString(short: string)
    | ArrayField(elements: seq<Field>)
    | TableField(entries: map<string, Field>)
    | OtherField(printed: string)

  /** `static_cast<std::int64_t>` of an integer of any width. */
  function AsInt64(x: int): int64 {
    var low := x % TWO_TO_THE_64;
    if low < TWO_TO_THE_63 then low else low - TWO_TO_THE_64
  }

  function PowerOfTen(n: nat): real { if n == 0 then 1.0 else 10.0 * PowerOfTen(n - 1) }

  lemma {:induction false} PowerOfTenPositive(n: nat)
    ensures PowerOfTen(n) > 0.0
  {
    if n > 0 { PowerOfTenPositive(n - 1); }
  }

  function DecimalValue(places: nat, unscaled: nat): real {
    PowerOfTenPositive(places);
    unscaled as real / PowerOfTen(places)
  }

  function ToField(v: ConfigValue): Field {
    match v
    case Null => VoidField
    case Bool(b) => BooleanSet(if b then 1 else 0)
    case Int64(n) => LongLong(n)
    case Double(d) => DoubleField(d)
    case Str(s) => LongString(s)
    case Arr(items) => ArrayField(seq(|items|, i requires 0 <= i < |items| => ToField(items[i])))
    case Obj(fields) => TableField(map k | k in fields :: ToField(fields[k]))
  }

  /** The branches are tried in the source's order; the last one cannot fail, so neither can this. */
  function FromField(f: Field): ConfigValue {
    match f
    case VoidField => Null
    case BooleanSet(o) => Bool(o != 0)
    case LongString(s) => Str(s)
    case ShortString(s) => Str(s)
    case ArrayField(elements) => Arr(seq(|elements|, i requires 0 <= i < |elements| => FromField(elements[i])))
    case TableField(entries) => Obj(map k | k in entries :: FromField(entries[k]))
    case DecimalField(p, u) => Double(Finite(DecimalValue(p as nat, u)))
    case FloatField(d) => Double(d)
    case DoubleField(d) => Double(d)
    case LongLong(n) => Int64(AsInt64(n))
    case WholeNumber(n) => Int64(AsInt64(n))
    case OtherField(text) => Str(text)
  }

  /** A configuration tree survives the journey through an AMQP table at every nesting depth. */
  lemma {:induction false} ConfigRoundTrip(v: ConfigValue)
    ensures FromField(ToField(v)) == v
  {
    match v
    case Null =>
    case Bool(_) =>
    case Int64(_) =>
    case Double(_) =>
    case Str(_) =>
    case Arr(items) =>
      forall i | 0 <= i < |items| ensures FromField(ToField(items[i])) == items[i] {
        ConfigRoundTrip(items[i]);
      }
    case Obj(fields) =>
      forall k | k in fields ensures FromField(ToField(fields[k])) == fields[k] {
        ConfigRoundTrip(fields[k]);
      }
      var back := FromField(ToField(v));
      assert back.fields.Keys == fields.Keys;
      assert back.fields == fields;
  }

  /** Distinct trees stay distinct as fields. */
  lemma ToFieldInjective(v: ConfigValue, w: ConfigValue)
    ensures ToField(v) == ToField(w) <==> v == w
  {
    ConfigRoundTrip(v);
    ConfigRoundTrip(w);
  }

  /** The kinds that the bus does not write read like those it does: a short string like a long one, a
      narrow real like a wide one, any integer like the 64-bit one it is congruent to, any octet but zero
      as true, a decimal as the number it denotes, and anything else as its text. */
  lemma OtherKindsReadAlike(s: string, d: Float, n: int, o: bv8, p: bv8, u: nat)
    ensures FromField(ShortString(s)) == FromField(LongString(s)) == FromField(OtherField(s)) == Str(s)
    ensures FromField(FloatField(d)) == FromField(DoubleField(d)) == Double(d)
    ensures FromField(WholeNumber(n)).Int64? && FromField(WholeNumber(n)) == FromField(WholeNumber(n + TWO_TO_THE_64))
    ensures -TWO_TO_THE_63 <= n < TWO_TO_THE_63 ==> FromField(WholeNumber(n)) == FromField(LongLong(n)) == Int64(n)
    ensures FromField(BooleanSet(o)) == (if o == 0 then FromField(BooleanSet(0)) else FromField(BooleanSet(1)))
    ensures FromField(BooleanSet(0)) == Bool(false) && FromField(BooleanSet(1)) == Bool(true)
    ensures var v := FromField(DecimalField(p, u));
            v.Double? && v.amount.Finite? && v.amount.value * PowerOfTen(p as nat) == u as real
  {
    PowerOfTenPositive(p as nat);
    assert (n + TWO_TO_THE_64) % TWO_TO_THE_64 == n % TWO_TO_THE_64;
  }

  /** Arrays and tables read element by element, nothing left out and nothing added. */
  lemma ContainersReadInside(elements: seq<Field>, entries: map<string, Field>)
    ensures var v := FromField(ArrayField(elements));
            v.Arr? && |v.items| == |elements| && forall i :: 0 <= i < |elements| ==> v.items[i] == FromField(elements[i])
    ensures var v := FromField(TableField(entries));
            v.Obj? && v.fields.Keys == entries.Keys && forall k :: k in entries ==> v.fields[k] == FromField(entries[k])
  {
    assert FromField(TableField(entries)).fields.Keys == entries.Keys;
  }

  /** What a field becomes when it is read and written again. */
  function Normalised(f: Field): Field { ToField(FromField(f)) }

  lemma NormalisationIsIdempotent(f: Field)
    ensures Normalised(Normalised(f)) == Normalised(f)
    ensures FromField(Normalised(f)) == FromField(f)
  {
    ConfigRoundTrip(FromField(f));
  }

  /** The fields that the journey leaves alone: exactly those that a configuration tree produces. */
  predicate IsNormal(f: Field) {
    match f
    case VoidField => true
    case BooleanSet(o) => o == 0 || o == 1
    case LongLong(_) => true
    case DoubleField(_) => true
    case LongString(_) => true
    case ArrayField(elements) => forall i :: 0 <= i < |elements| ==> IsNormal(elements[i])
    case TableField(entries) => forall k :: k in entries ==> IsNormal(entries[k])
    case _ => false
  }

  lemma {:induction false} ToFieldIsNormal(v: ConfigValue)
    ensures IsNormal(ToField(v))
  {
    match v
    case Arr(items) =>
      forall i | 0 <= i < |items| ensures IsNormal(ToField(items[i])) { ToFieldIsNormal(items[i]); }
    case Obj(fields) =>
      forall k | k in fields ensures IsNormal(ToField(fields[k])) { ToFieldIsNormal(fields[k]); }
    case _ =>
  }

  /** A field comes back unchanged exactly when it is of one of the six kinds the bus writes. */
  lemma {:induction false} UnchangedIffNormal(f: Field)
    ensures Normalised(f) == f <==> IsNormal(f)
  {
    if IsNormal(f) {
      match f
      case ArrayField(elements) =>
        forall i | 0 <= i < |elements| ensures Normalised(elements[i]) == elements[i] {
          UnchangedIffNormal(elements[i]);
        }
        assert Normalised(f).elements == elements;
      case TableField(entries) =>
        forall k | k in entries ensures Normalised(entries[k]) == entries[k] {
          UnchangedIffNormal(entries[k]);
        }
        assert Normalised(f).entries == entries;
      case _ =>
    } else {
      ToFieldIsNormal(FromField(f));
    }
  }
}
