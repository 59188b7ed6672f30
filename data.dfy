/** Rows as the data service returns them. Only the fields the lookup
    service reads are declared. */
module Data {
  import Decimals

  datatype Category = Category(CategoryID: int, Name: string)
  datatype CountryCode = CountryCode(CountryCodeID: string, Name: string)
  datatype OrderStatus = OrderStatus(Status: int, Name: string)
  datatype PaymentType = PaymentType(PaymentTypeID: int, Name: string)
  datatype Shipper = Shipper(ShipperID: int, Name: string, Phone: string)
  /** Rate is a C# decimal, scale included. */
  datatype TaxType = TaxType(TaxTypeID: int, Name: string, Rate: Decimals.Decimal)
}
