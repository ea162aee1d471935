/** One invoice record of the input file, reduced to the fields the
    processor itself reads; everything else it only hands to the steps. */
module Requests {

  /** `invoice["issuer"]["cuit"]`, `invoice["issuer"]["type"]`,
      `invoice["invoice"]["type"]` and `invoice["invoice"]["punto_venta"]`. */
  datatype InvoiceRequest = InvoiceRequest(
    issuerCuit: string,
    issuerType: string,
    invoiceType: string,
    puntoVenta: string)
}
