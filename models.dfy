/** The display records the lookup service stores, one per reference table. */
module Models {
  import Decimals

  datatype CategoryModel = CategoryModel(CategoryID: int, Name: string)
  datatype CountryCodeModel = CountryCodeModel(CountryCodeID: string, Name: string)
  datatype OrderStatusModel = OrderStatusModel(Status: int, Name: string)
  datatype PaymentTypeModel = PaymentTypeModel(PaymentTypeID: int, Name: string)
  datatype ShipperModel = ShipperModel(ShipperID: int, Name: string, Phone: string)
  datatype TaxTypeModel = TaxTypeModel(TaxTypeID: int, Name: string, Rate: Decimals.Decimal)
}
