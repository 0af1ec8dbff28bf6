/**
 * The generic record of the database exporter (database.rs): `DbValue`, its conversions
 * from Rust values, `DbMessage` as a mutable field map, and the SurrealDB exporter, whose
 * methods are stubs.
 */
module DatabaseValues {
  import opened Wrappers

  newtype i32 = x: int | -0x8000_0000 <= x < 0x8000_0000
  newtype i64 = x: int | -0x8000_0000_0000_0000 <= x < 0x8000_0000_0000_0000

  /** `DbValue` without `Float`, which no conversion produces. */
  datatype DbValue = Integer(i: i64) | Text(s: string) | Boolean(b: bool) | Array(items: seq<DbValue>) | Null

  // ================================================================ conversions

  function FromI64(v: i64): (r: DbValue)
    ensures r.Integer? && r.i as int == v as int
  {
    Integer(v)
  }

  /** `v as i64` widens: the value is kept. */
  function FromI32(v: i32): (r: DbValue)
    ensures r.Integer? && r.i as int == v as int
  {
    Integer(v as int as i64)
  }

  /** `String`, and `&str` through `to_string`: the same text. */
  function FromText(v: string): (r: DbValue)
    ensures r.Text? && r.s == v
  {
    Text(v)
  }

  function FromBool(v: bool): (r: DbValue)
    ensures r.Boolean? && r.b == v
  {
    Boolean(v)
  }

  function FromUnit(): (r: DbValue)
    ensures r.Null?
  {
    Null
  }

  /** `Option<T>`: absent is `Null`, present converts as the value itself does. */
  function FromOption<T>(opt: Option<T>, into: T -> DbValue): (r: DbValue)
    ensures opt.None? ==> r.Null?
    ensures opt.Some? ==> r == into(opt.value)
  {
    match opt
    case Some(v) => into(v)
    case None => Null
  }

  /** `Vec<T>` through `map(Into::into).collect()`: each element converted, in order. */
  function FromVec<T>(v: seq<T>, into: T -> DbValue): (r: DbValue)
    ensures r.Array? && |r.items| == |v|
    ensures forall i :: 0 <= i < |v| ==> r.items[i] == into(v[i])
  {
    Array(ConvertAll(v, into))
  }

  function ConvertAll<T>(v: seq<T>, into: T -> DbValue): (r: seq<DbValue>)
    ensures |r| == |v|
    ensures forall i :: 0 <= i < |v| ==> r[i] == into(v[i])
  {
    if v == [] then [] else ConvertAll(v[..|v| - 1], into) + [into(v[|v| - 1])]
  }

  /** The two integer widths agree on every value they share. */
  lemma IntegerWidthsAgree(v: i32)
    ensures FromI32(v) == FromI64(v as int as i64)
  {
  }

  /** Conversions keep values apart: different integers or texts never become the same
      `DbValue`; an absent value becomes what `()` becomes, a present one never does. */
  lemma ConversionsInjective(a: i64, b: i64, s: string, t: string)
    ensures FromI64(a) == FromI64(b) ==> a == b
    ensures FromText(s) == FromText(t) ==> s == t
    ensures FromOption<i64>(None, FromI64) == FromUnit()
    ensures FromOption(Some(a), FromI64) != FromUnit()
  {
  }

  /** Nested conversions compose: an optional list of optional integers becomes an array
      whose absent entries are `Null` and whose present ones are `Integer`. */
  lemma NestedConversion(v: seq<Option<i64>>)
    ensures var r := FromOption(Some(v), (w: seq<Option<i64>>) => FromVec(w, (o: Option<i64>) => FromOption(o, FromI64)));
            r.Array? && |r.items| == |v|
            && forall i :: 0 <= i < |v| ==> (r.items[i].Null? <==> v[i].None?)
  {
    var r := FromVec(v, (o: Option<i64>) => FromOption(o, FromI64));
    assert forall i :: 0 <= i < |v| ==> r.items[i] == FromOption(v[i], FromI64);
  }

  // ================================================================ DbMessage

  /** `DbMessage`: a map from field names to values. */
  class DbMessage {
    var fields: map<string, DbValue>

    /** `DbMessage::new`: no fields. */
    constructor ()
      ensures fields == map[]
    {
      fields := map[];
    }

    /** `insert`: the key's value is the converted value, replacing any earlier one; the
        other fields are untouched. */
    method Insert<V>(key: string, value: V, into: V -> DbValue)
      modifies this
      ensures key in fields && fields[key] == into(value)
      ensures forall k :: k != key ==> (k in fields <==> k in old(fields)) && (k in fields ==> fields[k] == old(fields)[k])
      ensures fields.Keys == old(fields).Keys + {key}
    {
      fields := fields[key := into(value)];
    }
  }

  // ================================================================ exporter stubs

  /** `SurrealDBExporter`: both operations are still to be written and succeed without
      doing anything. */
  class SurrealDbExporter {
    constructor () {}

    method InsertMessages(messages: seq<DbMessage>) returns (r: Result<(), string>)
      ensures r.Ok?
    {
      r := Ok(());
    }

    method Flush() returns (r: Result<(), string>)
      ensures r.Ok?
    {
      r := Ok(());
    }
  }
}
