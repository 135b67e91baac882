/** Dispatch from the generic response tree to typed entities: a fixed
    registry from entity class to converter, matching of item type tags
    against entity class names, single-entity creation and page assembly. */
module EntityFactory {
  import opened Wrappers
  import opened Exceptions
  import opened Schema

  /** A Java entity class, identified by its simple and canonical names. */
  datatype EntityClass = EntityClass(simpleName: string, canonicalName: string)

  const License := EntityClass("License", "com.labs64.netlicensing.domain.entity.License")
  const Licensee := EntityClass("Licensee", "com.labs64.netlicensing.domain.entity.Licensee")
  const LicenseTemplate := EntityClass("LicenseTemplate", "com.labs64.netlicensing.domain.entity.LicenseTemplate")
  const PaymentMethod := EntityClass("PaymentMethod", "com.labs64.netlicensing.domain.entity.PaymentMethod")
  const Product := EntityClass("Product", "com.labs64.netlicensing.domain.entity.Product")
  const ProductModule := EntityClass("ProductModule", "com.labs64.netlicensing.domain.entity.ProductModule")
  const Token := EntityClass("Token", "com.labs64.netlicensing.domain.entity.Token")
  const Transaction := EntityClass("Transaction", "com.labs64.netlicensing.domain.entity.Transaction")
  const LicensingModelProperties :=
    EntityClass("LicensingModelProperties", "com.labs64.netlicensing.domain.vo.LicensingModelProperties")
  const LicenseTypeProperties :=
    EntityClass("LicenseTypeProperties", "com.labs64.netlicensing.domain.vo.LicenseTypeProperties")
  const ValidationResult := EntityClass("ValidationResult", "com.labs64.netlicensing.domain.vo.ValidationResult")

  /** The per-entity converter classes the registry points at. */
  datatype ConverterKind =
    | ItemToLicenseConverter
    | ItemToLicenseeConverter
    | ItemToLicenseTemplateConverter
    | ItemToPaymentMethodConverter
    | ItemToProductConverter
    | ItemToProductModuleConverter
    | ItemToTokenConverter
    | ItemToTransactionConverter
    | ItemToLicensingModelPropertiesConverter
    | ItemToLicenseTypePropertiesConverter

  /** The registry filled by the static initialiser. */
  const Registry: map<EntityClass, ConverterKind> := map[
    License := ItemToLicenseConverter,
    Licensee := ItemToLicenseeConverter,
    LicenseTemplate := ItemToLicenseTemplateConverter,
    PaymentMethod := ItemToPaymentMethodConverter,
    Product := ItemToProductConverter,
    ProductModule := ItemToProductModuleConverter,
    Token := ItemToTokenConverter,
    Transaction := ItemToTransactionConverter,
    LicensingModelProperties := ItemToLicensingModelPropertiesConverter,
    LicenseTypeProperties := ItemToLicenseTypePropertiesConverter
  ]

  /** The converters themselves, whose code is outside this model:
      `item` runs the converter of a registered kind on one item, and
      `validation` is `ItemsToValidationResultConverter`, which receives the
      (possibly null) items container. Either may fail. */
  datatype Converters<E> = Converters(
    item: (ConverterKind, Item) -> Result<E, Error>,
    validation: Option<Items> -> Result<E, Error>)

  /** A page of converted entities with the container's metadata. */
  datatype Page<E> = Page(
    content: seq<E>,
    pageNumber: int,
    itemsNumber: int,
    totalPages: int,
    totalItems: int,
    hasNext: bool)

  const PropertiesSuffix := "Properties"

  /** Java's `s + t` where `s` may be null: a null reference prints as "null". */
  function JavaConcat(s: Option<string>, t: string): (r: string) {
    (if s.None? then "null" else s.value) + t
  }

  /** An item is of class `cls` when its tag is the class's simple name, or
      when the tag followed by "Properties" is. */
  predicate IsItemOfType(item: Item, cls: EntityClass) {
    Some(cls.simpleName) == item.itemType
    || cls.simpleName == JavaConcat(item.itemType, PropertiesSuffix)
  }

  /** Reference definition: the type tags a class accepts, obtained by
      stripping the suffix from the class name instead of appending it to the tag. */
  function AcceptedTags(name: string): (r: set<Option<string>>) {
    var n := |PropertiesSuffix|;
    {Some(name)}
    + (if n <= |name| && name[|name| - n..] == PropertiesSuffix then
         {Some(name[..|name| - n])} + (if name[..|name| - n] == "null" then {None} else {})
       else {})
  }

  lemma SuffixSplit(t: string, name: string)
    ensures t + PropertiesSuffix == name
        <==> (|PropertiesSuffix| <= |name|
              && name[|name| - |PropertiesSuffix|..] == PropertiesSuffix
              && name[..|name| - |PropertiesSuffix|] == t)
  {
  }

  /** Matching by appending the suffix to the tag agrees with the
      suffix-stripping reference definition, for every item and class. */
  lemma IsItemOfTypeIffAccepted(item: Item, cls: EntityClass)
    ensures IsItemOfType(item, cls) <==> item.itemType in AcceptedTags(cls.simpleName)
  {
    var name := cls.simpleName;
    match item.itemType
    case None =>
      SuffixSplit("null", name);
    case Some(t) =>
      SuffixSplit(t, name);
  }

  /** The tags the ten registered classes accept: their own simple name, and
      for the two `...Properties` classes also the name without the suffix. */
  lemma RegisteredTags()
    ensures AcceptedTags(License.simpleName) == {Some("License")}
    ensures AcceptedTags(Licensee.simpleName) == {Some("Licensee")}
    ensures AcceptedTags(LicenseTemplate.simpleName) == {Some("LicenseTemplate")}
    ensures AcceptedTags(PaymentMethod.simpleName) == {Some("PaymentMethod")}
    ensures AcceptedTags(Product.simpleName) == {Some("Product")}
    ensures AcceptedTags(ProductModule.simpleName) == {Some("ProductModule")}
    ensures AcceptedTags(Token.simpleName) == {Some("Token")}
    ensures AcceptedTags(Transaction.simpleName) == {Some("Transaction")}
    ensures AcceptedTags(LicensingModelProperties.simpleName)
         == {Some("LicensingModelProperties"), Some("LicensingModel")}
    ensures AcceptedTags(LicenseTypeProperties.simpleName)
         == {Some("LicenseTypeProperties"), Some("LicenseType")}
  {
    assert "LicensingModelProperties"[24 - 10..] == PropertiesSuffix;
    assert "LicensingModelProperties"[..24 - 10] == "LicensingModel";
    assert "LicenseTypeProperties"[21 - 10..] == PropertiesSuffix;
    assert "LicenseTypeProperties"[..21 - 10] == "LicenseType";
  }

  /** The registry holds exactly the ten entity classes, and not ValidationResult. */
  lemma RegistryKeys()
    ensures Registry.Keys == {License, Licensee, LicenseTemplate, PaymentMethod, Product,
                              ProductModule, Token, Transaction,
                              LicensingModelProperties, LicenseTypeProperties}
    ensures |Registry| == 10
    ensures ValidationResult !in Registry
  {
  }

  /** The tag a registered class accepts is its simple name, or one of the
      two names with the suffix stripped. */
  lemma RegisteredTagForms(t: Option<string>, c: EntityClass)
    requires c in Registry && t in AcceptedTags(c.simpleName)
    ensures t == Some(c.simpleName)
         || (c == LicensingModelProperties && t == Some("LicensingModel"))
         || (c == LicenseTypeProperties && t == Some("LicenseType"))
  {
    RegistryKeys();
    if c == LicensingModelProperties || c == LicenseTypeProperties {
      RegisteredTags();
    } else {
      assert c in {License, Licensee, LicenseTemplate, PaymentMethod, Product, ProductModule, Token, Transaction};
      assert AcceptedTags(c.simpleName) == {Some(c.simpleName)} by {
        RegisteredTags();
      }
    }
  }

  /** Registered classes are told apart by their simple names. */
  lemma RegisteredNamesDistinct(c1: EntityClass, c2: EntityClass)
    requires c1 in Registry && c2 in Registry
    ensures c1.simpleName == c2.simpleName ==> c1 == c2
    ensures c1.simpleName != "LicensingModel" && c1.simpleName != "LicenseType"
  {
    RegistryKeys();
  }

  /** Tag dispatch over the registry is unambiguous: no item is of two
      different registered classes, and an item with a null tag is of none. */
  lemma RegisteredDispatchUnambiguous(item: Item, c1: EntityClass, c2: EntityClass)
    requires c1 in Registry && c2 in Registry
    requires IsItemOfType(item, c1)
    ensures item.itemType.Some?
    ensures IsItemOfType(item, c2) ==> c1 == c2
  {
    IsItemOfTypeIffAccepted(item, c1);
    RegisteredTagForms(item.itemType, c1);
    if IsItemOfType(item, c2) {
      IsItemOfTypeIffAccepted(item, c2);
      RegisteredTagForms(item.itemType, c2);
      RegisteredNamesDistinct(c1, c2);
      RegisteredNamesDistinct(c2, c1);
    }
  }

  /** `converterFor`: the registered converter, or IllegalArgumentException
      for a class without one. */
  function ConverterFor(cls: EntityClass): (r: Result<ConverterKind, Error>)
    ensures r.Success? <==> cls in Registry
    ensures r.Success? ==> r.value == Registry[cls]
    ensures r.Failure? ==>
      r.error == IllegalArgument("No converter is found for entity of class " + cls.canonicalName)
  {
    if cls in Registry then Success(Registry[cls])
    else Failure(IllegalArgument("No converter is found for entity of class " + cls.canonicalName))
  }

  /** The first index in `s` holding an item of class `cls`, or `|s|` when none does. */
  function FirstIndexOfType(s: seq<Item>, cls: EntityClass): (i: nat)
    ensures i <= |s|
    ensures forall j :: 0 <= j < i ==> !IsItemOfType(s[j], cls)
    ensures i < |s| ==> IsItemOfType(s[i], cls)
  {
    if s == [] then 0
    else if IsItemOfType(s[0], cls) then 0
    else 1 + FirstIndexOfType(s[1..], cls)
  }

  function NoItemMessage(cls: EntityClass): (r: string) {
    "Service response doesn't contain item of type " + cls.canonicalName
  }

  /** `findSuitableItemOfType`: the first item of class `cls` in list order;
      WrongResponseFormatException when there is no container or no such item. */
  function FindSuitableItemOfType(resp: Netlicensing, cls: EntityClass): (r: Result<Item, Error>)
    ensures r.Success? <==>
      resp.items.Some? && exists j :: 0 <= j < |resp.items.value.item| && IsItemOfType(resp.items.value.item[j], cls)
    ensures r.Success? ==>
      exists i :: 0 <= i < |resp.items.value.item| && r.value == resp.items.value.item[i]
        && IsItemOfType(r.value, cls)
        && forall j :: 0 <= j < i ==> !IsItemOfType(resp.items.value.item[j], cls)
    ensures r.Failure? ==> r.error == WrongResponseFormat(NoItemMessage(cls))
  {
    if resp.items.Some? then
      var s := resp.items.value.item;
      var i := FirstIndexOfType(s, cls);
      if i < |s| then Success(s[i]) else Failure(WrongResponseFormat(NoItemMessage(cls)))
    else
      Failure(WrongResponseFormat(NoItemMessage(cls)))
  }

  /** The indices of the items of class `cls`, in increasing order: the
      reference against which the filtered list is stated. */
  ghost function MatchingIndices(s: seq<Item>, cls: EntityClass): (r: seq<nat>)
    ensures forall k :: 0 <= k < |r| ==> r[k] < |s| && IsItemOfType(s[r[k]], cls)
    ensures forall k, l :: 0 <= k < l < |r| ==> r[k] < r[l]
    ensures forall i :: 0 <= i < |s| && IsItemOfType(s[i], cls) ==> i in r
  {
    if s == [] then []
    else
      var p := MatchingIndices(s[..|s| - 1], cls);
      assert forall k :: 0 <= k < |p| ==> s[..|s| - 1][p[k]] == s[p[k]];
      if IsItemOfType(s[|s| - 1], cls) then p + [|s| - 1] else p
  }

  /** The loop of `extractListOfType`: keep the items of class `cls`, in order. */
  function FilterOfType(s: seq<Item>, cls: EntityClass): (r: seq<Item>)
    ensures |r| == |MatchingIndices(s, cls)|
    ensures forall k :: 0 <= k < |r| ==> r[k] == s[MatchingIndices(s, cls)[k]]
    ensures forall x :: x in r ==> IsItemOfType(x, cls)
  {
    if s == [] then []
    else
      var p := FilterOfType(s[..|s| - 1], cls);
      ghost var mp := MatchingIndices(s[..|s| - 1], cls);
      assert forall k :: 0 <= k < |mp| ==> s[..|s| - 1][mp[k]] == s[mp[k]];
      if IsItemOfType(s[|s| - 1], cls) then p + [s[|s| - 1]] else p
  }

  /** `extractListOfType`: exactly the items of class `cls`, as an
      order-preserving subsequence. The source dereferences the container
      without a check, so callers must have established it is present. */
  function ExtractListOfType(resp: Netlicensing, cls: EntityClass): (r: seq<Item>)
    requires resp.items.Some?
    ensures forall x :: x in r ==> IsItemOfType(x, cls)
    ensures forall x :: x in resp.items.value.item && IsItemOfType(x, cls) ==> x in r
    ensures |r| == |MatchingIndices(resp.items.value.item, cls)|
    ensures forall k :: 0 <= k < |r| ==> r[k] == resp.items.value.item[MatchingIndices(resp.items.value.item, cls)[k]]
  {
    var s := resp.items.value.item;
    var r := FilterOfType(s, cls);
    ghost var m := MatchingIndices(s, cls);
    forall x | x in s && IsItemOfType(x, cls)
      ensures x in r
    {
      var i :| 0 <= i < |s| && s[i] == x;
      var k :| 0 <= k < |m| && m[k] == i;
      assert r[k] == x;
    }
    r
  }

  /** The first match found by search is the head of the filtered list: the
      two traversals agree on every response. */
  lemma FirstMatchIsHeadOfFilter(s: seq<Item>, cls: EntityClass)
    ensures FirstIndexOfType(s, cls) < |s| <==> FilterOfType(s, cls) != []
    ensures FilterOfType(s, cls) != [] ==> FilterOfType(s, cls)[0] == s[FirstIndexOfType(s, cls)]
  {
    var i := FirstIndexOfType(s, cls);
    var m := MatchingIndices(s, cls);
    if i < |s| {
      assert i in m;
      var k :| 0 <= k < |m| && m[k] == i;
      assert m[0] <= m[k];
      assert m[0] == i;
    }
    if m != [] {
      assert IsItemOfType(s[m[0]], cls);
    }
  }

  /** The loop of `createPage`: convert each item in order; the first
      converter failure aborts the whole page. */
  function ConvertAll<E>(convert: Item -> Result<E, Error>, s: seq<Item>): (r: Result<seq<E>, Error>)
    ensures r.Success? <==> forall i :: 0 <= i < |s| ==> convert(s[i]).Success?
    ensures r.Success? ==> |r.value| == |s| && forall i :: 0 <= i < |s| ==> r.value[i] == convert(s[i]).value
    ensures r.Failure? ==>
      exists i :: 0 <= i < |s| && convert(s[i]) == Failure(r.error)
        && forall j :: 0 <= j < i ==> convert(s[j]).Success?
  {
    if s == [] then Success([])
    else
      var head :- convert(s[0]);
      var tail :- ConvertAll(convert, s[1..]);
      assert forall i :: 1 <= i < |s| ==> s[i] == s[1..][i - 1];
      Success([head] + tail)
  }

  const NotAPageMessage := "Service response is not a page response"

  /** `createPage`: the converted matching items plus the container's page
      metadata; WrongResponseFormatException without a container and
      IllegalArgumentException for an unregistered class. */
  function CreatePage<E>(conv: Converters<E>, resp: Netlicensing, cls: EntityClass): (r: Result<Page<E>, Error>)
    ensures resp.items.None? ==> r == Failure(WrongResponseFormat(NotAPageMessage))
    ensures resp.items.Some? && cls !in Registry ==> r == ConverterFor(cls).PropagateFailure()
    ensures r.Success? ==>
      var items := resp.items.value;
      var matching := ExtractListOfType(resp, cls);
      && cls in Registry
      && |r.value.content| == |matching|
      && (forall i :: 0 <= i < |matching| ==> conv.item(Registry[cls], matching[i]) == Success(r.value.content[i]))
      && r.value.pageNumber == items.pagenumber
      && r.value.itemsNumber == items.itemsnumber
      && r.value.totalPages == items.totalpages
      && r.value.totalItems == items.totalitems
      && r.value.hasNext == items.hasnext
    ensures resp.items.Some? && cls in Registry ==>
      (r.Success? <==> forall x :: x in ExtractListOfType(resp, cls) ==> conv.item(Registry[cls], x).Success?)
  {
    if resp.items.Some? then
      var items := resp.items.value;
      var kind :- ConverterFor(cls);
      var matching := ExtractListOfType(resp, cls);
      var entities :- ConvertAll(item => conv.item(kind, item), matching);
      Success(Page(entities, items.pagenumber, items.itemsnumber, items.totalpages, items.totalitems, items.hasnext))
    else
      Failure(WrongResponseFormat(NotAPageMessage))
  }

  /** `create`: ValidationResult goes straight to its converter with the
      whole container; every other class is resolved by first match and
      then converted by its registered converter. */
  function Create<E>(conv: Converters<E>, resp: Netlicensing, cls: EntityClass): (r: Result<E, Error>)
    ensures cls == ValidationResult ==> r == conv.validation(resp.items)
    ensures cls != ValidationResult && FindSuitableItemOfType(resp, cls).Failure? ==>
      r == FindSuitableItemOfType(resp, cls).PropagateFailure()
    ensures cls != ValidationResult && FindSuitableItemOfType(resp, cls).Success? ==>
      r == (if cls in Registry then conv.item(Registry[cls], FindSuitableItemOfType(resp, cls).value)
            else ConverterFor(cls).PropagateFailure())
    ensures cls != ValidationResult && r.Success? ==>
      && cls in Registry && resp.items.Some?
      && exists i :: 0 <= i < |resp.items.value.item|
           && IsItemOfType(resp.items.value.item[i], cls)
           && (forall j :: 0 <= j < i ==> !IsItemOfType(resp.items.value.item[j], cls))
           && r == conv.item(Registry[cls], resp.items.value.item[i])
  {
    if cls == ValidationResult then
      conv.validation(resp.items)
    else
      var item :- FindSuitableItemOfType(resp, cls);
      var kind :- ConverterFor(cls);
      conv.item(kind, item)
  }

  /** Requesting a class without a converter fails: with the missing-item
      error when the response has no item of that class, with the
      missing-converter error otherwise. ValidationResult is the one
      unregistered class that can succeed. */
  lemma CreateUnregistered<E>(conv: Converters<E>, resp: Netlicensing, cls: EntityClass)
    requires cls !in Registry && cls != ValidationResult
    ensures Create(conv, resp, cls).Failure?
    ensures Create(conv, resp, cls).error.IllegalArgument?
        <==> resp.items.Some? && exists j :: 0 <= j < |resp.items.value.item| && IsItemOfType(resp.items.value.item[j], cls)
  {
  }
}
