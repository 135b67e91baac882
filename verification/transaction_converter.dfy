/** Conversion of one generic item into a `Transaction`: two enumeration
    fields that must parse, optional decimal and date fields that are set
    only when present, a verbatim currency, and every non-reserved property
    collected into the transaction's custom-property map. */
module TransactionConverter {
  import opened Wrappers
  import opened Exceptions
  import opened Schema

  /** A decimal number `unscaled * 10^-scale`, as `BigDecimal` holds it. */
  datatype Decimal = Decimal(unscaled: int, scale: int)

  /** The transaction entity. `number` and `active` are filled by the base
      converter; the other fields by this converter. Dates are milliseconds
      since the epoch; `status` and `source` hold the name of an enumeration
      constant. */
  datatype Transaction = Transaction(
    number: Option<string>,
    active: Option<bool>,
    status: Option<string>,
    source: Option<string>,
    price: Option<Decimal>,
    discount: Option<Decimal>,
    currency: Option<string>,
    dateCreated: Option<int>,
    dateClosed: Option<int>,
    transactionProperties: map<string, Option<string>>)

  /** A Java enumeration: its canonical name and the names of its constants. */
  datatype EnumType = EnumType(canonicalName: string, constants: set<string>)

  /** Wire names of the properties this converter reads. */
  const STATUS := "status"
  const SOURCE := "source"
  const PRICE := "price"
  const DISCOUNT := "discount"
  const CURRENCY := "currency"
  const DATE_CREATED := "dateCreated"
  const DATE_CLOSED := "dateClosed"

  /** The code this converter calls but whose source is outside this model:
      `baseConvert` is the inherited `convert` (it creates the target and
      fills the common fields); `propertyValue` is the value of the property
      that `SchemaFunction.propertyByName` finds, null when absent or unset;
      `parseDecimal` and `parseDate` are the decimal and date parsers (the
      latter already giving epoch milliseconds); `reservedProps` is
      `Transaction.getReservedProps()`; `status` and `source` are the two
      enumerations. */
  datatype Collaborators = Collaborators(
    baseConvert: Item -> Result<Transaction, Error>,
    propertyValue: (seq<Property>, string) -> Option<string>,
    parseDecimal: string -> Result<Decimal, Error>,
    parseDate: string -> Result<int, Error>,
    reservedProps: set<string>,
    status: EnumType,
    source: EnumType)

  /** `newTarget`: a transaction with no field set and no custom property. */
  function NewTarget(): (t: Transaction)
    ensures t.transactionProperties == map[]
    ensures t.number.None? && t.active.None?
    ensures t.status.None? && t.source.None? && t.price.None? && t.discount.None?
    ensures t.currency.None? && t.dateCreated.None? && t.dateClosed.None?
  {
    Transaction(None, None, None, None, None, None, None, None, None, map[])
  }

  /** `Enum.valueOf`: the constant of that name; NullPointerException for a
      null name and IllegalArgumentException for a name that is no constant. */
  function ValueOf(e: EnumType, name: Option<string>): (r: Result<string, Error>)
    ensures r.Success? <==> name.Some? && name.value in e.constants
    ensures r.Success? ==> name == Some(r.value)
    ensures name.None? ==> r.Failure? && r.error.NullPointer?
    ensures name.Some? && name.value !in e.constants ==> r.Failure? && r.error.IllegalArgument?
  {
    match name
    case None => Failure(NullPointer("Name is null"))
    case Some(n) =>
      if n in e.constants then Success(n)
      else Failure(IllegalArgument("No enum constant " + e.canonicalName + "." + n))
  }

  /** An optional field: parsed when the property value is non-null, and
      otherwise left as it was. */
  function SetIfPresent<T>(value: Option<string>, parse: string -> Result<T, Error>, current: Option<T>)
    : (r: Result<Option<T>, Error>)
    ensures value.None? ==> r == Success(current)
    ensures value.Some? ==> (r.Success? <==> parse(value.value).Success?)
    ensures value.Some? && r.Success? ==> r.value == Some(parse(value.value).value)
    ensures value.Some? && r.Failure? ==> r.error == parse(value.value).error
  {
    match value
    case None => Success(current)
    case Some(v) =>
      var parsed :- parse(v);
      Success(Some(parsed))
  }

  /** `i` is the last position in `props` holding a property called `name`. */
  ghost predicate IsLastNamed(props: seq<Property>, i: int, name: string) {
    0 <= i < |props| && props[i].name == name
    && forall j :: i < j < |props| ==> props[j].name != name
  }

  /** The custom-property loop: each property whose name is not reserved is
      put into the map, later ones overwriting earlier ones. */
  function PutCustomProperties(m: map<string, Option<string>>, props: seq<Property>, reserved: set<string>)
    : (r: map<string, Option<string>>)
  {
    if props == [] then m
    else
      var last := props[|props| - 1];
      var prefix := PutCustomProperties(m, props[..|props| - 1], reserved);
      if last.name !in reserved then prefix[last.name := last.value] else prefix
  }

  /** A non-reserved property that is the last of its name ends up in the map
      with its value: later duplicates overwrite earlier ones. */
  lemma {:induction false} LastOccurrenceWins(m: map<string, Option<string>>, props: seq<Property>,
                                              reserved: set<string>, i: int)
    requires 0 <= i < |props| && props[i].name !in reserved && IsLastNamed(props, i, props[i].name)
    ensures props[i].name in PutCustomProperties(m, props, reserved)
    ensures PutCustomProperties(m, props, reserved)[props[i].name] == props[i].value
  {
    var init := props[..|props| - 1];
    if i < |props| - 1 {
      assert init[i] == props[i];
      assert IsLastNamed(init, i, init[i].name);
      LastOccurrenceWins(m, init, reserved, i);
      assert props[|props| - 1].name != props[i].name;
    }
  }

  /** Every key of the result was already in the map or is the name of a
      non-reserved property: the loop never inserts a reserved name. */
  lemma {:induction false} KeysFromMapOrProperties(m: map<string, Option<string>>, props: seq<Property>,
                                                   reserved: set<string>, k: string)
    requires k in PutCustomProperties(m, props, reserved)
    ensures k in m || (k !in reserved && exists i :: 0 <= i < |props| && props[i].name == k)
  {
    if props != [] {
      var init := props[..|props| - 1];
      var last := props[|props| - 1];
      if last.name !in reserved && k == last.name {
        assert props[|props| - 1].name == k;
      } else {
        KeysFromMapOrProperties(m, init, reserved, k);
        if k !in m {
          var i :| 0 <= i < |init| && init[i].name == k;
          assert props[i].name == k;
        }
      }
    }
  }

  /** A key that is reserved, or that no property names, keeps its value. */
  lemma {:induction false} OtherKeysUnchanged(m: map<string, Option<string>>, props: seq<Property>,
                                              reserved: set<string>, k: string)
    requires k in m
    requires k in reserved || forall i :: 0 <= i < |props| ==> props[i].name != k
    ensures k in PutCustomProperties(m, props, reserved)
    ensures PutCustomProperties(m, props, reserved)[k] == m[k]
  {
    if props != [] {
      var init := props[..|props| - 1];
      assert forall i :: 0 <= i < |init| ==> init[i] == props[i];
      OtherKeysUnchanged(m, init, reserved, k);
    }
  }

  /** The three facts above for all positions and keys at once. */
  lemma CustomPropertiesSpec(m: map<string, Option<string>>, props: seq<Property>, reserved: set<string>)
    ensures var r := PutCustomProperties(m, props, reserved);
      && (forall i :: 0 <= i < |props| && props[i].name !in reserved && IsLastNamed(props, i, props[i].name) ==>
            props[i].name in r && r[props[i].name] == props[i].value)
      && (forall k :: k in r ==>
            k in m || (k !in reserved && exists i :: 0 <= i < |props| && props[i].name == k))
      && (forall k :: (k in m && (k in reserved || forall i :: 0 <= i < |props| ==> props[i].name != k)) ==>
            k in r && r[k] == m[k])
  {
    var r := PutCustomProperties(m, props, reserved);
    forall i | 0 <= i < |props| && props[i].name !in reserved && IsLastNamed(props, i, props[i].name)
      ensures props[i].name in r && r[props[i].name] == props[i].value
    {
      LastOccurrenceWins(m, props, reserved, i);
    }
    forall k | k in r
      ensures k in m || (k !in reserved && exists i :: 0 <= i < |props| && props[i].name == k)
    {
      KeysFromMapOrProperties(m, props, reserved, k);
    }
    forall k | k in m && (k in reserved || forall i :: 0 <= i < |props| ==> props[i].name != k)
      ensures k in r && r[k] == m[k]
    {
      OtherKeysUnchanged(m, props, reserved, k);
    }
  }

  /** `convert`: the base converter's transaction with status, source,
      price, discount, currency, the two dates and the custom properties
      filled in from the item, in the source's order of evaluation. */
  function Convert(ctx: Collaborators, source: Item): (r: Result<Transaction, Error>)
    // It fails exactly when the base converter fails, an enumeration name is
    // null or unknown, or a present decimal or date does not parse.
    ensures r.Success? <==>
      var pv := (n: string) => ctx.propertyValue(source.property, n);
      && ctx.baseConvert(source).Success?
      && pv(STATUS).Some? && pv(STATUS).value in ctx.status.constants
      && pv(SOURCE).Some? && pv(SOURCE).value in ctx.source.constants
      && (pv(PRICE).Some? ==> ctx.parseDecimal(pv(PRICE).value).Success?)
      && (pv(DISCOUNT).Some? ==> ctx.parseDecimal(pv(DISCOUNT).value).Success?)
      && (pv(DATE_CREATED).Some? ==> ctx.parseDate(pv(DATE_CREATED).value).Success?)
      && (pv(DATE_CLOSED).Some? ==> ctx.parseDate(pv(DATE_CLOSED).value).Success?)
    // The base converter runs first, then status, then source.
    ensures ctx.baseConvert(source).Failure? ==> r == Failure(ctx.baseConvert(source).error)
    ensures ctx.baseConvert(source).Success? && ctx.propertyValue(source.property, STATUS).None? ==>
      r.Failure? && r.error.NullPointer?
    ensures ctx.baseConvert(source).Success? && ctx.propertyValue(source.property, STATUS).Some?
      && ctx.propertyValue(source.property, STATUS).value !in ctx.status.constants
      ==> r.Failure? && r.error.IllegalArgument?
    ensures ctx.baseConvert(source).Success? && ValueOf(ctx.status, ctx.propertyValue(source.property, STATUS)).Success?
      && ctx.propertyValue(source.property, SOURCE).None?
      ==> r.Failure? && r.error.NullPointer?
    ensures ctx.baseConvert(source).Success? && ValueOf(ctx.status, ctx.propertyValue(source.property, STATUS)).Success?
      && ctx.propertyValue(source.property, SOURCE).Some?
      && ctx.propertyValue(source.property, SOURCE).value !in ctx.source.constants
      ==> r.Failure? && r.error.IllegalArgument?
    ensures r.Success? ==>
      var base := ctx.baseConvert(source).value;
      var pv := (n: string) => ctx.propertyValue(source.property, n);
      var t := r.value;
      && t.number == base.number && t.active == base.active
      && t.status == pv(STATUS) && t.source == pv(SOURCE)
      && t.price == (if pv(PRICE).None? then base.price else Some(ctx.parseDecimal(pv(PRICE).value).value))
      && t.discount == (if pv(DISCOUNT).None? then base.discount else Some(ctx.parseDecimal(pv(DISCOUNT).value).value))
      && t.currency == pv(CURRENCY)
      && t.dateCreated == (if pv(DATE_CREATED).None? then base.dateCreated else Some(ctx.parseDate(pv(DATE_CREATED).value).value))
      && t.dateClosed == (if pv(DATE_CLOSED).None? then base.dateClosed else Some(ctx.parseDate(pv(DATE_CLOSED).value).value))
    // Custom properties: every non-reserved name holds the value of its last
    // occurrence, and no other key is added or changed.
    ensures r.Success? ==>
      var base := ctx.baseConvert(source).value;
      var props := source.property;
      var custom := r.value.transactionProperties;
      && (forall i :: 0 <= i < |props| && props[i].name !in ctx.reservedProps && IsLastNamed(props, i, props[i].name) ==>
            props[i].name in custom && custom[props[i].name] == props[i].value)
      && (forall k :: k in custom ==>
            k in base.transactionProperties || (k !in ctx.reservedProps && exists i :: 0 <= i < |props| && props[i].name == k))
      && (forall k :: (k in base.transactionProperties
            && (k in ctx.reservedProps || forall i :: 0 <= i < |props| ==> props[i].name != k)) ==>
            k in custom && custom[k] == base.transactionProperties[k])
  {
    var base :- ctx.baseConvert(source);
    var props := source.property;
    var status :- ValueOf(ctx.status, ctx.propertyValue(props, STATUS));
    var src :- ValueOf(ctx.source, ctx.propertyValue(props, SOURCE));
    var price :- SetIfPresent(ctx.propertyValue(props, PRICE), ctx.parseDecimal, base.price);
    var discount :- SetIfPresent(ctx.propertyValue(props, DISCOUNT), ctx.parseDecimal, base.discount);
    var currency := ctx.propertyValue(props, CURRENCY);
    var created :- SetIfPresent(ctx.propertyValue(props, DATE_CREATED), ctx.parseDate, base.dateCreated);
    var closed :- SetIfPresent(ctx.propertyValue(props, DATE_CLOSED), ctx.parseDate, base.dateClosed);
    var custom := PutCustomProperties(base.transactionProperties, props, ctx.reservedProps);
    CustomPropertiesSpec(base.transactionProperties, props, ctx.reservedProps);
    Success(base.(
      status := Some(status),
      source := Some(src),
      price := price,
      discount := discount,
      currency := currency,
      dateCreated := created,
      dateClosed := closed,
      transactionProperties := custom))
  }
}
