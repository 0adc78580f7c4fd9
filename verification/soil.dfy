/** The seven-field soil sample that travels from the intake form to the
    results page, and the field-by-field view of it used by both pages. */
module Soil {
  import opened Numbers

  /** The keys of the record, one constructor per key. */
  datatype Field = Nitrogen | Phosphorus | Potassium | Temperature | Humidity | Ph | Rainfall

  datatype SoilData = SoilData(
    nitrogen: Num,
    phosphorus: Num,
    potassium: Num,
    temperature: Num,
    humidity: Num,
    ph: Num,
    rainfall: Num)

  /** Record order of the keys. The record literal declares them in this order
      and updates only overwrite existing keys, so it is also the order in which
      `Object.entries` walks them. */
  const FieldOrder: seq<Field> := [Nitrogen, Phosphorus, Potassium, Temperature, Humidity, Ph, Rainfall]

  /** The property name of a field in the record. */
  function Key(f: Field): string
  {
    match f
    case Nitrogen => "nitrogen"
    case Phosphorus => "phosphorus"
    case Potassium => "potassium"
    case Temperature => "temperature"
    case Humidity => "humidity"
    case Ph => "ph"
    case Rainfall => "rainfall"
  }

  /** Where a field sits in the record order. */
  function Position(f: Field): (i: nat)
    ensures i < |FieldOrder| && FieldOrder[i] == f
  {
    match f
    case Nitrogen => 0
    case Phosphorus => 1
    case Potassium => 2
    case Temperature => 3
    case Humidity => 4
    case Ph => 5
    case Rainfall => 6
  }

  /** `data[field]` */
  function Get(d: SoilData, f: Field): Num
  {
    match f
    case Nitrogen => d.nitrogen
    case Phosphorus => d.phosphorus
    case Potassium => d.potassium
    case Temperature => d.temperature
    case Humidity => d.humidity
    case Ph => d.ph
    case Rainfall => d.rainfall
  }

  /** `{ ...d, [field]: v }`: the named field takes `v`, every other field keeps its value. */
  function Set(d: SoilData, f: Field, v: Num): (r: SoilData)
    ensures Get(r, f) == v
    ensures forall g :: g != f ==> Get(r, g) == Get(d, g)
  {
    match f
    case Nitrogen => d.(nitrogen := v)
    case Phosphorus => d.(phosphorus := v)
    case Potassium => d.(potassium := v)
    case Temperature => d.(temperature := v)
    case Humidity => d.(humidity := v)
    case Ph => d.(ph := v)
    case Rainfall => d.(rainfall := v)
  }

  /** The record order lists every field exactly once. */
  lemma FieldOrderIsEnumeration()
    ensures forall f :: f in FieldOrder
    ensures forall i, j :: 0 <= i < j < |FieldOrder| ==> FieldOrder[i] != FieldOrder[j]
  {
    forall f ensures f in FieldOrder {
      assert FieldOrder[Position(f)] == f;
    }
  }

  /** Distinct fields have distinct property names, so a message naming a
      field identifies it. */
  lemma KeyInjective(f: Field, g: Field)
    ensures Key(f) == Key(g) ==> f == g
  {
  }
}
