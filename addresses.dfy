/** The five-part shipping address shared by the `users` table, the order snapshots
    and the client's checkout checks. A missing (`null`/`undefined`) component is
    represented by the empty string: JavaScript treats both as falsy. */
module Addresses {

  datatype Address = Address(street: string, city: string, state: string, zip: string, country: string)

  const NoAddress := Address("", "", "", "", "")

  /** `street && city && state && zip && country`: every component is present. */
  predicate IsComplete(a: Address) {
    a.street != "" && a.city != "" && a.state != "" && a.zip != "" && a.country != ""
  }
}
