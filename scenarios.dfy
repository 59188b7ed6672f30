/** Clients of the lookup service that initialize it with concrete fetch
    results and observe the lookups, using only the service's contracts. */
module Scenarios {
  import opened Wrappers
  import Data
  import Services
  import Ordinal
  import Decimals

  /** Two categories are found by id; an unknown id yields null. */
  method CategoryLookups() returns (first: Option<string>, second: Option<string>, missing: Option<string>)
    ensures first == Some("Beverages") && second == Some("Condiments") && missing == None
  {
    var tables := new Services.LookupTables((rate: Decimals.Decimal) => "");
    var fetched := [Data.Category(1, "Beverages"), Data.Category(2, "Condiments")];
    var outcome := tables.Initialize(Success(fetched), Success([]), Success([]), Success([]), Success([]), Success([]));
    Services.LookupTables.LoadCategoriesFields(fetched);
    first := tables.GetCategory(1);
    second := tables.GetCategory(2);
    missing := tables.GetCategory(99);
  }

  /** Country codes fetched as United States, France are stored as France, United States. */
  method CountryOrder() returns (names: seq<string>)
    ensures names == ["France", "United States"]
  {
    var tables := new Services.LookupTables((rate: Decimals.Decimal) => "");
    var fetched := [Data.CountryCode("US", "United States"), Data.CountryCode("FR", "France")];
    var outcome := tables.Initialize(Success([]), Success(fetched),
                                     Success([]), Success([]), Success([]), Success([]));
    Services.LookupTables.LoadCountryCodesPermutation(fetched);
    Services.LookupTables.LoadCountryCodesSorted(fetched);
    var stored := tables.CountryCodes.value;
    assert stored[0] in multiset(stored) && stored[1] in multiset(stored);
    assert !Ordinal.Le("United States", "France");
    names := [stored[0].Name, stored[1].Name];
  }

  /** A tax type is described and rated by id; an unknown id is rated zero. */
  method TaxLookups(rateToString: Decimals.Decimal -> string)
    returns (desc: Option<string>, rate: Decimals.Decimal, missing: Decimals.Decimal)
    ensures desc == Some(rateToString(Decimals.Decimal(200, 1)) + " %")
    ensures rate == Decimals.Decimal(200, 1)
    ensures missing == Decimals.Zero
  {
    var tables := new Services.LookupTables(rateToString);
    var fetched := [Data.TaxType(1, "Standard", Decimals.Decimal(200, 1))];
    var outcome := tables.Initialize(Success([]), Success([]), Success([]), Success([]), Success([]), Success(fetched));
    Services.LookupTables.LoadTaxTypesFields(fetched);
    desc := tables.GetTaxDesc(1);
    rate := tables.GetTaxRate(1);
    missing := tables.GetTaxRate(2);
  }

  /** The rate reaches the formatter with its scale: 20.0 and 20.00 are
      distinct decimals, so the two descriptions are the formatter's text
      for each of them. */
  method TaxRateScaleKept(rateToString: Decimals.Decimal -> string)
    returns (oneDigit: Option<string>, twoDigits: Option<string>)
    ensures oneDigit == Some(rateToString(Decimals.Decimal(200, 1)) + " %")
    ensures twoDigits == Some(rateToString(Decimals.Decimal(2000, 2)) + " %")
  {
    var tables := new Services.LookupTables(rateToString);
    var fetched := [Data.TaxType(1, "Standard", Decimals.Decimal(200, 1)),
                    Data.TaxType(3, "Standard (2 dp)", Decimals.Decimal(2000, 2))];
    var outcome := tables.Initialize(Success([]), Success([]), Success([]), Success([]), Success([]), Success(fetched));
    Services.LookupTables.LoadTaxTypesFields(fetched);
    oneDigit := tables.GetTaxDesc(1);
    twoDigits := tables.GetTaxDesc(3);
  }

  /** A null payment type or shipper id reads as "" even before initialization. */
  method NullIdsBeforeInitialize() returns (payment: Option<string>, shipper: Option<string>)
    ensures payment == Some("") && shipper == Some("")
  {
    var tables := new Services.LookupTables((rate: Decimals.Decimal) => "");
    payment := tables.GetPaymentType(None);
    shipper := tables.GetShipper(None);
  }

  /** A failed fetch ends the initialization. The tables before it are
      assigned and can be searched; the tables from it on keep their previous
      (null) value, so the service is not fully initialized. */
  method FailedFetch() returns (outcome: Outcome<string>, category: Option<string>,
                                paymentTypesAssigned: bool, initialized: bool)
    ensures outcome == Fail("timeout") && category == Some("Beverages")
    ensures !paymentTypesAssigned && !initialized
  {
    var tables := new Services.LookupTables((rate: Decimals.Decimal) => "");
    outcome := tables.Initialize(Success([Data.Category(1, "Beverages")]), Success([]),
                                 Failure("timeout"), Success([Data.PaymentType(1, "Cash")]),
                                 Success([]), Success([]));
    category := tables.GetCategory(1);
    paymentTypesAssigned := tables.PaymentTypes.Some?;
    initialized := tables.Initialized();
  }
}
