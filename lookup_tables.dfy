/** The lookup-table service: six reference tables fetched once and then
    searched by key. */
module Services {
  import opened Wrappers
  import Linq
  import Ordinal
  import Data
  import Decimals
  import opened Models

  // The projections each fetcher applies to a fetched row.

  function ToCategoryModel(r: Data.Category): CategoryModel
  {
    CategoryModel(r.CategoryID, r.Name)
  }

  function ToCountryCodeModel(r: Data.CountryCode): CountryCodeModel
  {
    CountryCodeModel(r.CountryCodeID, r.Name)
  }

  function ToOrderStatusModel(r: Data.OrderStatus): OrderStatusModel
  {
    OrderStatusModel(r.Status, r.Name)
  }

  function ToPaymentTypeModel(r: Data.PaymentType): PaymentTypeModel
  {
    PaymentTypeModel(r.PaymentTypeID, r.Name)
  }

  function ToShipperModel(r: Data.Shipper): ShipperModel
  {
    ShipperModel(r.ShipperID, r.Name, r.Phone)
  }

  function ToTaxTypeModel(r: Data.TaxType): TaxTypeModel
  {
    TaxTypeModel(r.TaxTypeID, r.Name, r.Rate)
  }

  /** The sort key of a fetched country row. */
  function RowName(r: Data.CountryCode): string
  {
    r.Name
  }

  /** The sort key of a stored country record. */
  function ModelName(m: CountryCodeModel): string
  {
    m.Name
  }

  class LookupTables {
    /** The six C# list properties. Each is null (`None`) until a fetch
        assigns it, and a lookup in a null list throws. */
    var Categories: Option<seq<CategoryModel>>
    var CountryCodes: Option<seq<CountryCodeModel>>
    var OrderStatus: Option<seq<OrderStatusModel>>
    var PaymentTypes: Option<seq<PaymentTypeModel>>
    var Shippers: Option<seq<ShipperModel>>
    var TaxTypes: Option<seq<TaxTypeModel>>

    /** The text form of a decimal rate, as the current culture writes it. */
    const RateToString: Decimals.Decimal -> string

    /** All six tables have been assigned. */
    predicate Initialized()
      reads this
    {
      Categories.Some? && CountryCodes.Some? && OrderStatus.Some? &&
      PaymentTypes.Some? && Shippers.Some? && TaxTypes.Some?
    }

    constructor (rateToString: Decimals.Decimal -> string)
      ensures RateToString == rateToString
      ensures Categories == None && CountryCodes == None && OrderStatus == None
      ensures PaymentTypes == None && Shippers == None && TaxTypes == None
    {
      RateToString := rateToString;
      Categories, CountryCodes, OrderStatus := None, None, None;
      PaymentTypes, Shippers, TaxTypes := None, None, None;
    }

    // The fetchers: each projects the fetched rows to display records.

    static function LoadCategories(items: seq<Data.Category>): (r: seq<CategoryModel>)
      ensures |r| == |items|
    {
      Linq.Select(items, ToCategoryModel)
    }

    /** Record i carries the fields of each fetched category i, in fetch order. */
    static lemma LoadCategoriesFields(items: seq<Data.Category>)
      ensures var r := LoadCategories(items);
              forall i | 0 <= i < |items| ::
                r[i].CategoryID == items[i].CategoryID && r[i].Name == items[i].Name
    {
    }

    /** Country codes are sorted by name before they are projected. */
    static function LoadCountryCodes(items: seq<Data.CountryCode>): (r: seq<CountryCodeModel>)
      ensures |r| == |items|
    {
      Linq.Select(Linq.OrderBy(items, RowName), ToCountryCodeModel)
    }

    /** Sorting the fetched rows and projecting them is sorting their projections. */
    static lemma LoadCountryCodesIsSortedProjection(items: seq<Data.CountryCode>)
      ensures LoadCountryCodes(items) == Linq.OrderBy(Linq.Select(items, ToCountryCodeModel), ModelName)
    {
      Linq.SelectOrderBy(items, RowName, ToCountryCodeModel, ModelName);
    }

    /** The stored country codes are a permutation of the projected rows. */
    static lemma LoadCountryCodesPermutation(items: seq<Data.CountryCode>)
      ensures multiset(LoadCountryCodes(items)) == multiset(Linq.Select(items, ToCountryCodeModel))
    {
      LoadCountryCodesIsSortedProjection(items);
    }

    /** The stored country codes are in non-decreasing order of name. */
    static lemma LoadCountryCodesSorted(items: seq<Data.CountryCode>)
      ensures forall i, j | 0 <= i < j < |LoadCountryCodes(items)| ::
                Ordinal.Le(LoadCountryCodes(items)[i].Name, LoadCountryCodes(items)[j].Name)
    {
      LoadCountryCodesIsSortedProjection(items);
      Linq.OrderBySorted(Linq.Select(items, ToCountryCodeModel), ModelName);
    }

    /** Country codes with the same name keep the order in which they were fetched. */
    static lemma LoadCountryCodesStable(items: seq<Data.CountryCode>, n: string)
      ensures Linq.WithKey(LoadCountryCodes(items), ModelName, n) ==
              Linq.WithKey(Linq.Select(items, ToCountryCodeModel), ModelName, n)
    {
      LoadCountryCodesIsSortedProjection(items);
      Linq.OrderByStable(Linq.Select(items, ToCountryCodeModel), ModelName, n);
    }

    /** Any list that is in name order and keeps the fetched order among
        equal names is the stored list: the result does not depend on which
        stable sort produced it. */
    static lemma LoadCountryCodesIsAnyStableSort(items: seq<Data.CountryCode>, r: seq<CountryCodeModel>)
      requires forall i, j | 0 <= i < j < |r| :: Ordinal.Le(r[i].Name, r[j].Name)
      requires forall n :: Linq.WithKey(r, ModelName, n) ==
                           Linq.WithKey(Linq.Select(items, ToCountryCodeModel), ModelName, n)
      ensures r == LoadCountryCodes(items)
    {
      LoadCountryCodesIsSortedProjection(items);
      Linq.OrderByUnique(Linq.Select(items, ToCountryCodeModel), r, ModelName);
    }

    static function LoadOrderStatus(items: seq<Data.OrderStatus>): (r: seq<OrderStatusModel>)
      ensures |r| == |items|
    {
      Linq.Select(items, ToOrderStatusModel)
    }

    /** Record i carries the fields of each fetched order status i, in fetch order. */
    static lemma LoadOrderStatusFields(items: seq<Data.OrderStatus>)
      ensures var r := LoadOrderStatus(items);
              forall i | 0 <= i < |items| ::
                r[i].Status == items[i].Status && r[i].Name == items[i].Name
    {
    }

    static function LoadPaymentTypes(items: seq<Data.PaymentType>): (r: seq<PaymentTypeModel>)
      ensures |r| == |items|
    {
      Linq.Select(items, ToPaymentTypeModel)
    }

    /** Record i carries the fields of each fetched payment type i, in fetch order. */
    static lemma LoadPaymentTypesFields(items: seq<Data.PaymentType>)
      ensures var r := LoadPaymentTypes(items);
              forall i | 0 <= i < |items| ::
                r[i].PaymentTypeID == items[i].PaymentTypeID && r[i].Name == items[i].Name
    {
    }

    static function LoadShippers(items: seq<Data.Shipper>): (r: seq<ShipperModel>)
      ensures |r| == |items|
    {
      Linq.Select(items, ToShipperModel)
    }

    /** Record i carries the fields of each fetched shipper i, in fetch order. */
    static lemma LoadShippersFields(items: seq<Data.Shipper>)
      ensures var r := LoadShippers(items);
              forall i | 0 <= i < |items| ::
                r[i].ShipperID == items[i].ShipperID && r[i].Name == items[i].Name &&
                r[i].Phone == items[i].Phone
    {
    }

    static function LoadTaxTypes(items: seq<Data.TaxType>): (r: seq<TaxTypeModel>)
      ensures |r| == |items|
    {
      Linq.Select(items, ToTaxTypeModel)
    }

    /** Record i carries the fields of each fetched tax type i, in fetch order. */
    static lemma LoadTaxTypesFields(items: seq<Data.TaxType>)
      ensures var r := LoadTaxTypes(items);
              forall i | 0 <= i < |items| ::
                r[i].TaxTypeID == items[i].TaxTypeID && r[i].Name == items[i].Name &&
                r[i].Rate == items[i].Rate
    {
    }

    /** Fetches the six tables in order and stores each projection. The first
        fetch that faults ends the initialization with its exception; the
        tables it and the later fetches would have set keep their values. */
    method Initialize(categories: Result<seq<Data.Category>, string>,
                      countryCodes: Result<seq<Data.CountryCode>, string>,
                      orderStatus: Result<seq<Data.OrderStatus>, string>,
                      paymentTypes: Result<seq<Data.PaymentType>, string>,
                      shippers: Result<seq<Data.Shipper>, string>,
                      taxTypes: Result<seq<Data.TaxType>, string>)
      returns (outcome: Outcome<string>)
      modifies this
      ensures Categories == (if categories.Success? then Some(LoadCategories(categories.value))
                             else old(Categories))
      ensures CountryCodes == (if categories.Success? && countryCodes.Success?
                               then Some(LoadCountryCodes(countryCodes.value)) else old(CountryCodes))
      ensures OrderStatus == (if categories.Success? && countryCodes.Success? && orderStatus.Success?
                              then Some(LoadOrderStatus(orderStatus.value)) else old(OrderStatus))
      ensures PaymentTypes == (if categories.Success? && countryCodes.Success? && orderStatus.Success? &&
                                  paymentTypes.Success?
                               then Some(LoadPaymentTypes(paymentTypes.value)) else old(PaymentTypes))
      ensures Shippers == (if categories.Success? && countryCodes.Success? && orderStatus.Success? &&
                              paymentTypes.Success? && shippers.Success?
                           then Some(LoadShippers(shippers.value)) else old(Shippers))
      ensures TaxTypes == (if categories.Success? && countryCodes.Success? && orderStatus.Success? &&
                              paymentTypes.Success? && shippers.Success? && taxTypes.Success?
                           then Some(LoadTaxTypes(taxTypes.value)) else old(TaxTypes))
      ensures outcome ==
              if categories.Failure? then Fail(categories.error)
              else if countryCodes.Failure? then Fail(countryCodes.error)
              else if orderStatus.Failure? then Fail(orderStatus.error)
              else if paymentTypes.Failure? then Fail(paymentTypes.error)
              else if shippers.Failure? then Fail(shippers.error)
              else if taxTypes.Failure? then Fail(taxTypes.error)
              else Pass
      ensures outcome.Pass? ==> Initialized()
    {
      if categories.Failure? { return Fail(categories.error); }
      Categories := Some(LoadCategories(categories.value));
      if countryCodes.Failure? { return Fail(countryCodes.error); }
      CountryCodes := Some(LoadCountryCodes(countryCodes.value));
      if orderStatus.Failure? { return Fail(orderStatus.error); }
      OrderStatus := Some(LoadOrderStatus(orderStatus.value));
      if paymentTypes.Failure? { return Fail(paymentTypes.error); }
      PaymentTypes := Some(LoadPaymentTypes(paymentTypes.value));
      if shippers.Failure? { return Fail(shippers.error); }
      Shippers := Some(LoadShippers(shippers.value));
      if taxTypes.Failure? { return Fail(taxTypes.error); }
      TaxTypes := Some(LoadTaxTypes(taxTypes.value));
      return Pass;
    }

    // The lookups: the first row whose key equals the argument, or null.
    // Each needs its list to have been assigned, as the C# code dereferences it.

    function GetCategory(id: int): (r: Option<string>)
      reads this
      requires Categories.Some?
      ensures var t := Categories.value;
              r.None? <==> forall i | 0 <= i < |t| :: t[i].CategoryID != id
      ensures var t := Categories.value;
              r.Some? ==> exists i | 0 <= i < |t| ::
                t[i].CategoryID == id && r.value == t[i].Name &&
                forall j | 0 <= j < i :: t[j].CategoryID != id
    {
      Linq.FirstOrNone(Categories.value, (c: CategoryModel) => c.CategoryID == id, (c: CategoryModel) => c.Name)
    }

    function GetCountry(id: string): (r: Option<string>)
      reads this
      requires CountryCodes.Some?
      ensures var t := CountryCodes.value;
              r.None? <==> forall i | 0 <= i < |t| :: t[i].CountryCodeID != id
      ensures var t := CountryCodes.value;
              r.Some? ==> exists i | 0 <= i < |t| ::
                t[i].CountryCodeID == id && r.value == t[i].Name &&
                forall j | 0 <= j < i :: t[j].CountryCodeID != id
    {
      Linq.FirstOrNone(CountryCodes.value, (c: CountryCodeModel) => c.CountryCodeID == id,
                       (c: CountryCodeModel) => c.Name)
    }

    function GetOrderStatus(id: int): (r: Option<string>)
      reads this
      requires OrderStatus.Some?
      ensures var t := OrderStatus.value;
              r.None? <==> forall i | 0 <= i < |t| :: t[i].Status != id
      ensures var t := OrderStatus.value;
              r.Some? ==> exists i | 0 <= i < |t| ::
                t[i].Status == id && r.value == t[i].Name &&
                forall j | 0 <= j < i :: t[j].Status != id
    {
      Linq.FirstOrNone(OrderStatus.value, (o: OrderStatusModel) => o.Status == id, (o: OrderStatusModel) => o.Name)
    }

    /** A null id gives the empty string without consulting the list, so it
        works before the list is assigned. */
    function GetPaymentType(id: Option<int>): (r: Option<string>)
      reads this
      requires id.Some? ==> PaymentTypes.Some?
      ensures id.None? ==> r == Some("")
      ensures id.Some? ==> var t := PaymentTypes.value;
                (r.None? <==> forall i | 0 <= i < |t| :: t[i].PaymentTypeID != id.value)
      ensures id.Some? && r.Some? ==> var t := PaymentTypes.value;
                exists i | 0 <= i < |t| ::
                  t[i].PaymentTypeID == id.value && r.value == t[i].Name &&
                  forall j | 0 <= j < i :: t[j].PaymentTypeID != id.value
    {
      match id
      case None => Some("")
      case Some(k) =>
        Linq.FirstOrNone(PaymentTypes.value, (p: PaymentTypeModel) => p.PaymentTypeID == k,
                         (p: PaymentTypeModel) => p.Name)
    }

    /** A null id gives the empty string without consulting the list, so it
        works before the list is assigned. */
    function GetShipper(id: Option<int>): (r: Option<string>)
      reads this
      requires id.Some? ==> Shippers.Some?
      ensures id.None? ==> r == Some("")
      ensures id.Some? ==> var t := Shippers.value;
                (r.None? <==> forall i | 0 <= i < |t| :: t[i].ShipperID != id.value)
      ensures id.Some? && r.Some? ==> var t := Shippers.value;
                exists i | 0 <= i < |t| ::
                  t[i].ShipperID == id.value && r.value == t[i].Name &&
                  forall j | 0 <= j < i :: t[j].ShipperID != id.value
    {
      match id
      case None => Some("")
      case Some(k) =>
        Linq.FirstOrNone(Shippers.value, (s: ShipperModel) => s.ShipperID == k, (s: ShipperModel) => s.Name)
    }

    /** The first matching rate's text followed by " %", or null. */
    function GetTaxDesc(id: int): (r: Option<string>)
      reads this
      requires TaxTypes.Some?
      ensures var t := TaxTypes.value;
              r.None? <==> forall i | 0 <= i < |t| :: t[i].TaxTypeID != id
      ensures var t := TaxTypes.value;
              r.Some? ==> exists i | 0 <= i < |t| ::
                t[i].TaxTypeID == id && r.value == RateToString(t[i].Rate) + " %" &&
                forall j | 0 <= j < i :: t[j].TaxTypeID != id
    {
      Linq.FirstOrNone(TaxTypes.value, (t: TaxTypeModel) => t.TaxTypeID == id,
                       (t: TaxTypeModel) => RateToString(t.Rate) + " %")
    }

    /** The first matching rate, scale included, or zero (the default decimal). */
    function GetTaxRate(id: int): (r: Decimals.Decimal)
      reads this
      requires TaxTypes.Some?
      ensures var t := TaxTypes.value;
              (forall i | 0 <= i < |t| :: t[i].TaxTypeID != id) ==> r == Decimals.Zero
      ensures var t := TaxTypes.value;
              (exists i | 0 <= i < |t| :: t[i].TaxTypeID == id) ==>
                exists i | 0 <= i < |t| ::
                  t[i].TaxTypeID == id && r == t[i].Rate &&
                  forall j | 0 <= j < i :: t[j].TaxTypeID != id
    {
      match Linq.FirstOrNone(TaxTypes.value, (t: TaxTypeModel) => t.TaxTypeID == id, (t: TaxTypeModel) => t.Rate)
      case None => Decimals.Zero
      case Some(rate) => rate
    }

    /** The description and the rate of a tax type come from the same row. */
    lemma TaxDescMatchesRate(id: int)
      requires TaxTypes.Some?
      ensures GetTaxDesc(id).Some? ==> GetTaxDesc(id).value == RateToString(GetTaxRate(id)) + " %"
      ensures GetTaxDesc(id).None? ==> GetTaxRate(id) == Decimals.Zero
    {
    }
  }
}
